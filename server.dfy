/**
 * The bookkeeping of the Express backend: the file and analysis tables, the upload route, the
 * two delete routes, the FASTQ and FASTA analysis routes and the listing queries.
 *
 * The database is the class `Database` with one map per table and an id counter per table
 * (autoincrement ids starting at 1). Every outside step is an input of the method that makes it:
 * what S3 answers, whether an insert fails, what the Python collaborator returned.
 */
module Server {
  import opened Common
  import opened Filenames
  import opened BlobStore
  import opened CreateFastq

  datatype Category = Genomic | Primer | Pcr | Fastq

  /** The categories that count as uploaded FASTA files. */
  predicate IsFastaCategory(c: Category) {
    c == Genomic || c == Primer
  }

  /** `categoryEnumMap[category]`. */
  function CategoryOf(category: string): (c: Option<Category>)
    ensures c.Some? && IsFastaCategory(c.value) <==> category == "genomic" || category == "primer"
  {
    if category == "genomic" then Some(Genomic)
    else if category == "primer" then Some(Primer)
    else if category == "pcr" then Some(Pcr)
    else if category == "fastq" then Some(Fastq)
    else None
  }

  datatype File = File(userId: nat, filename: string, path: string, category: Category)

  datatype FastqAnalysis = FastqAnalysis(
    userId: nat, primerFileId: int, referenceFileId: int,
    result: FastqReport,        // the collaborator's report, stored as `JSON.stringify(result)`
    analysisName: string, sampleName: string, sequenceCount: int,
    fastqFileR1Id: Option<int>, fastqFileR2Id: Option<int>,
    primerFilename: string, referenceFilename: string)

  datatype FastaAnalysis = FastaAnalysis(userId: nat, fastaFileId: int, result: string)

  /** The unique index `userId_sampleName_primerFileId_referenceFileId_sequenceCount_analysisName`. */
  datatype FastqKey = FastqKey(userId: nat, sampleName: string, primerFileId: int, referenceFileId: int,
                               sequenceCount: int, analysisName: string)

  function KeyOf(a: FastqAnalysis): FastqKey {
    FastqKey(a.userId, a.sampleName, a.primerFileId, a.referenceFileId, a.sequenceCount, a.analysisName)
  }

  /** What a route sends: a JSON body with status 200, an error status with its message, or nothing (an exception escaped the handler). */
  datatype Reply<+T> = Success(value: T) | Failure(status: nat, error: string) | NoReply

  datatype UploadSaved = UploadSaved(fileId: int, filename: string, category: Category)

  /** `{ id, filename }` of a linked FASTQ file; absent when the relation is empty. */
  type FileRef = Option<(int, string)>

  datatype CreateFastqBody =
    | AlreadyExists(result: FastqReport, r1: FileRef, r2: FileRef)
    | Created(sampleName: string, r1Id: int, r2Id: int, r1Path: string, r2Path: string)

  /** The arguments `/create-fastq` passes to create_fastq.py. */
  datatype FastqCall = FastqCall(primerPath: string, referencePath: string, outputPrefix: string,
                                 sampleName: string, sequenceCount: int)

  /** How the collaborator's run ended: `execFile` reported an error, or stdout (None when it is not JSON). */
  datatype ScriptOutcome<+T> = ExecError | Stdout(json: Option<T>)

  /** The part of process_fasta.py's JSON the server reads. */
  datatype FastaReport = FastaReport(sequenceCount: Option<nat>)

  /** `/\.(exe|sh|js|bat)$/i`. */
  predicate IsDisallowed(name: string) {
    EndsWithIgnoringCase(name, ".exe") || EndsWithIgnoringCase(name, ".sh") ||
    EndsWithIgnoringCase(name, ".js") || EndsWithIgnoringCase(name, ".bat")
  }

  /** The object key of an upload: `<userId>/<category>/<name>`. */
  function UploadKey(userId: nat, category: string, name: string): (key: string)
    ensures key != ""
  {
    NatToString(userId) + "/" + category + "/" + name
  }

  /** `${USERDATA_BUCKET}/${userId}/fastq`: the prefix handed to create_fastq.py (it has no `s3://` scheme). */
  function FastqPrefix(bucket: string, userId: nat): string
  {
    bucket + "/" + NatToString(userId) + "/fastq"
  }

  function HasFileNamed(files: map<int, File>, userId: nat, name: string): bool
  {
    exists id :: id in files && files[id].userId == userId && files[id].filename == name
  }

  /** The `file.count` of the quota check: the user's PRIMER and GENOMIC files. */
  function FastaFileCount(files: map<int, File>, userId: nat): nat
  {
    |set id | id in files && files[id].userId == userId && IsFastaCategory(files[id].category)|
  }

  /**
   * The checks that run before the S3 put, in order, and the 400 reply of the first one that
   * fails; None when the upload reaches S3.
   */
  function UploadRejection(files: map<int, File>, userId: nat, category: string, originalName: Option<string>): Option<string>
  {
    if category != "genomic" && category != "primer" then Some("Invalid category. Use 'genomic' or 'primer'")
    else if originalName.None? then Some("No file uploaded")
    else
      var name := NormalizeFilename(originalName.value);
      if IsDisallowed(name) then Some("Disallowed file type")
      else if HasFileNamed(files, userId, name) then Some("File " + name + " already exists")
      else if FastaFileCount(files, userId) > 5 then Some("User already has maximum number of FASTA files (6).")
      else None
  }

  /** `[analysis.fastqFileR1Id, analysis.fastqFileR2Id].filter(Boolean)`. */
  function LinkedFileIds(a: FastqAnalysis): set<int>
  {
    (if a.fastqFileR1Id.Some? && a.fastqFileR1Id.value != 0 then {a.fastqFileR1Id.value} else {}) +
    (if a.fastqFileR2Id.Some? && a.fastqFileR2Id.value != 0 then {a.fastqFileR2Id.value} else {})
  }

  /** `analysis.fastqFileR<n>?.path`, kept when it is a non-empty string. */
  function LinkedPath(files: map<int, File>, id: Option<int>): seq<string>
  {
    if id.Some? && id.value in files && files[id.value].path != "" then [files[id.value].path] else []
  }

  /** `[analysis.fastqFileR1?.path, analysis.fastqFileR2?.path].filter(Boolean)`. */
  function LinkedPaths(files: map<int, File>, a: FastqAnalysis): seq<string>
  {
    LinkedPath(files, a.fastqFileR1Id) + LinkedPath(files, a.fastqFileR2Id)
  }

  /** `paths.filter(isS3Uri)`: exactly the S3 locators among `paths`. */
  function FilterS3(paths: seq<string>): (r: seq<string>)
    ensures forall p :: p in r <==> p in paths && IsS3Uri(p)
  {
    if paths == [] then []
    else
      assert forall p :: p in paths <==> p == paths[0] || p in paths[1..];
      (if IsS3Uri(paths[0]) then [paths[0]] else []) + FilterS3(paths[1..])
  }

  /** `paths.filter((p) => !isS3Uri(p))`: exactly the other paths. */
  function FilterLocal(paths: seq<string>): (r: seq<string>)
    ensures forall p :: p in r <==> p in paths && !IsS3Uri(p)
  {
    if paths == [] then []
    else
      assert forall p :: p in paths <==> p == paths[0] || p in paths[1..];
      (if IsS3Uri(paths[0]) then [] else [paths[0]]) + FilterLocal(paths[1..])
  }

  /** Both filters keep the order of `paths`: filtering a concatenation filters each part. */
  lemma {:induction false} FilterAppend(x: seq<string>, y: seq<string>)
    ensures FilterS3(x + y) == FilterS3(x) + FilterS3(y)
    ensures FilterLocal(x + y) == FilterLocal(x) + FilterLocal(y)
  {
    if x != [] {
      assert (x + y)[1..] == x[1..] + y;
      FilterAppend(x[1..], y);
    } else {
      assert x + y == y;
    }
  }

  /** Together the two filters hand on every path exactly once: each path goes to one side. */
  lemma {:induction false} FilterPartition(paths: seq<string>)
    ensures multiset(FilterS3(paths)) + multiset(FilterLocal(paths)) == multiset(paths)
  {
    if paths != [] {
      FilterPartition(paths[1..]);
      assert paths == [paths[0]] + paths[1..];
    }
  }

  function AsOptions(paths: seq<string>): seq<Option<string>>
  {
    seq(|paths|, i requires 0 <= i < |paths| => Some(paths[i]))
  }

  /** The requests `deleteManyFromS3` sends when request `failAt` (if any) rejects. */
  function SentBatches(plan: seq<Batch>, failAt: Option<nat>): seq<Batch>
  {
    if failAt.None? || failAt.value >= |plan| then plan else plan[..failAt.value + 1]
  }

  /** `existing.fastqFileR<n>` of the idempotency lookup. */
  function LinkedRef(files: map<int, File>, id: Option<int>): FileRef
  {
    if id.Some? && id.value in files then Some((id.value, files[id.value].filename)) else None
  }

  function CountText(count: Option<nat>): string
  {
    if count.Some? then NatToString(count.value) else "undefined"
  }

  /** The text `/analyze-fasta` stores: `Found ${result.sequence_count} sequences.` */
  function FastaResultText(count: Option<nat>): string
  {
    "Found " + CountText(count) + " sequences."
  }

  /** `result.error || "Unknown failure"`. */
  function FailureMessage(error: Option<string>): string
  {
    if error.None? || error.value == "" then "Unknown failure" else error.value
  }

  /** `/fastq-files`: the linked file's current name, or the stored copy marked as deleted. */
  function HydratedFilename(files: map<int, File>, id: int, stored: string): string
  {
    if id in files then files[id].filename else stored + " (Deleted)"
  }

  datatype FastqView = FastqView(analysis: FastqAnalysis, primerFilename: string, referenceFilename: string)

  /** The `hydrated` map of `/fastq-files` for one analysis. */
  function Hydrate(files: map<int, File>, a: FastqAnalysis): FastqView
  {
    FastqView(a, HydratedFilename(files, a.primerFileId, a.primerFilename),
                 HydratedFilename(files, a.referenceFileId, a.referenceFilename))
  }

  /** The file table after a run's R1 and R2 inserts, the rows taking the next ids in that order. */
  function FastqRowsAdded(files: map<int, File>, next: int, userId: nat, r1Path: string, r2Path: string,
                          r1Fails: bool, r2Fails: bool): map<int, File>
  {
    var r1 := File(userId, Basename(r1Path), r1Path, Fastq);
    var r2 := File(userId, Basename(r2Path), r2Path, Fastq);
    if r1Fails && r2Fails then files
    else if r1Fails then files[next := r2]
    else if r2Fails then files[next := r1]
    else files[next := r1][next + 1 := r2]
  }

  lemma FastqRowsAddedKeeps(files: map<int, File>, next: int, userId: nat, r1Path: string, r2Path: string,
                            r1Fails: bool, r2Fails: bool, id: int)
    requires id in files && id < next
    ensures var files' := FastqRowsAdded(files, next, userId, r1Path, r2Path, r1Fails, r2Fails);
      id in files' && files'[id] == files[id]
  {
  }

  predicate HasFastaAnalysisOf(fasta: map<int, FastaAnalysis>, fileId: int) {
    exists id :: id in fasta && fasta[id].fastaFileId == fileId
  }

  /** The upsert of `/analyze-fasta`: the analysis of `a`'s file is replaced by `a`, or `a` is added under `next`. */
  ghost function FastaUpsert(fasta: map<int, FastaAnalysis>, next: int, a: FastaAnalysis): map<int, FastaAnalysis>
  {
    if HasFastaAnalysisOf(fasta, a.fastaFileId) then
      var id :| id in fasta && fasta[id].fastaFileId == a.fastaFileId;
      fasta[id := a]
    else fasta[next := a]
  }

  ghost predicate DistinctFastaFiles(fasta: map<int, FastaAnalysis>) {
    forall i, j :: i in fasta && j in fasta && i != j ==> fasta[i].fastaFileId != fasta[j].fastaFileId
  }

  /** With one analysis per file, the upsert replaces exactly the analysis of that file. */
  lemma FastaUpsertAt(fasta: map<int, FastaAnalysis>, next: int, a: FastaAnalysis, id: int)
    requires DistinctFastaFiles(fasta)
    requires id in fasta && fasta[id].fastaFileId == a.fastaFileId
    ensures FastaUpsert(fasta, next, a) == fasta[id := a]
  {
  }

  /**
   * After the upsert the file has exactly one analysis, `a`; every analysis of another file is
   * untouched, and at most the one new id `next` appears.
   */
  lemma FastaUpsertStoresOne(fasta: map<int, FastaAnalysis>, next: int, a: FastaAnalysis)
    requires DistinctFastaFiles(fasta) && next !in fasta
    ensures var r := FastaUpsert(fasta, next, a);
      DistinctFastaFiles(r) &&
      (exists id :: id in r && r[id] == a) &&
      (forall id :: id in r && r[id].fastaFileId == a.fastaFileId ==> r[id] == a) &&
      (forall id :: id in fasta && fasta[id].fastaFileId != a.fastaFileId ==> id in r && r[id] == fasta[id]) &&
      r.Keys == fasta.Keys + (if HasFastaAnalysisOf(fasta, a.fastaFileId) then {} else {next})
  {
    if HasFastaAnalysisOf(fasta, a.fastaFileId) {
      var id :| id in fasta && fasta[id].fastaFileId == a.fastaFileId;
      FastaUpsertAt(fasta, next, a, id);
      assert FastaUpsert(fasta, next, a)[id] == a;
    } else {
      assert FastaUpsert(fasta, next, a)[next] == a;
    }
  }

  /** Both output paths of a report, when it has them. */
  function ReportedPaths(report: FastqReport): Option<(string, string)>
  {
    if report.r1Path.Some? && report.r2Path.Some? then Some((report.r1Path.value, report.r2Path.value)) else None
  }

  /** The report and paths of a create_fastq.py run whose rows the server goes on to save. */
  function SavedRun(outcome: ScriptOutcome<FastqReport>): Option<(FastqReport, string, string)>
  {
    match outcome
    case Stdout(Some(report)) =>
      if report.status == "success" && ReportedPaths(report).Some? then
        Some((report, ReportedPaths(report).value.0, ReportedPaths(report).value.1))
      else None
    case _ => None
  }

  datatype FileListing = FileListing(primer: map<int, string>, genomic: map<int, string>, pcr: map<int, string>)

  datatype FastaFileView = FastaFileView(file: File, analysisResult: Option<string>,
                                         primerAnalyses: set<int>, referenceAnalyses: set<int>)

  // ---------------------------------------------------------------------------
  // what the tables keep true

  /** Ids are positive and below the table's counter, so a new row never reuses one. */
  ghost predicate IdsBelow<T>(table: map<int, T>, next: int) {
    0 < next && forall id :: id in table ==> 0 < id < next
  }

  /** Analyses only refer to file ids that have been handed out. */
  ghost predicate ReferencesBelow(fastq: map<int, FastqAnalysis>, fasta: map<int, FastaAnalysis>, nextFileId: int) {
    (forall id :: id in fastq ==> fastq[id].primerFileId < nextFileId && fastq[id].referenceFileId < nextFileId) &&
    (forall id :: id in fasta ==> fasta[id].fastaFileId < nextFileId)
  }

  /** The denormalised primer and reference names equal the file's name while the file exists (files are never renamed). */
  ghost predicate FilenamesCopied(files: map<int, File>, fastq: map<int, FastqAnalysis>) {
    forall id :: id in fastq ==>
      (fastq[id].primerFileId in files ==> files[fastq[id].primerFileId].filename == fastq[id].primerFilename) &&
      (fastq[id].referenceFileId in files ==> files[fastq[id].referenceFileId].filename == fastq[id].referenceFilename)
  }

  ghost predicate UniqueFastqKeys(fastq: map<int, FastqAnalysis>) {
    forall i, j :: i in fastq && j in fastq && i != j ==> KeyOf(fastq[i]) != KeyOf(fastq[j])
  }

  /** A FASTA analysis belongs to its file's owner, and a file has at most one. */
  ghost predicate OneFastaAnalysisPerFile(files: map<int, File>, fasta: map<int, FastaAnalysis>) {
    (forall id :: id in fasta && fasta[id].fastaFileId in files ==> files[fasta[id].fastaFileId].userId == fasta[id].userId) &&
    DistinctFastaFiles(fasta)
  }

  /** No user has two PRIMER/GENOMIC files with the same name. */
  ghost predicate DistinctFastaNames(files: map<int, File>) {
    forall i, j ::
      (i in files && j in files && i != j && files[i].userId == files[j].userId &&
       IsFastaCategory(files[i].category) && IsFastaCategory(files[j].category)) ==> files[i].filename != files[j].filename
  }

  ghost predicate TablesValid(files: map<int, File>, fastq: map<int, FastqAnalysis>, fasta: map<int, FastaAnalysis>,
                              nextFileId: int, nextFastqId: int, nextFastaId: int)
  {
    IdsBelow(files, nextFileId) && IdsBelow(fastq, nextFastqId) && IdsBelow(fasta, nextFastaId) &&
    ReferencesBelow(fastq, fasta, nextFileId) && FilenamesCopied(files, fastq) && UniqueFastqKeys(fastq) &&
    OneFastaAnalysisPerFile(files, fasta) && DistinctFastaNames(files)
  }

  /** A new file row keeps the tables valid unless it is a FASTA file whose name the user already has. */
  lemma InsertFileKeepsTablesValid(files: map<int, File>, fastq: map<int, FastqAnalysis>, fasta: map<int, FastaAnalysis>,
                                   nextFileId: int, nextFastqId: int, nextFastaId: int, file: File)
    requires TablesValid(files, fastq, fasta, nextFileId, nextFastqId, nextFastaId)
    requires IsFastaCategory(file.category) ==> !HasFileNamed(files, file.userId, file.filename)
    ensures nextFileId !in files
    ensures TablesValid(files[nextFileId := file], fastq, fasta, nextFileId + 1, nextFastqId, nextFastaId)
  {
    var files' := files[nextFileId := file];
    forall i, j | i in files' && j in files' && i != j && files'[i].userId == files'[j].userId &&
                  IsFastaCategory(files'[i].category) && IsFastaCategory(files'[j].category)
      ensures files'[i].filename != files'[j].filename
    {
      if i == nextFileId {
        assert j in files;
      } else if j == nextFileId {
        assert i in files;
      }
    }
  }

  /** Removing file rows and FASTQ analyses keeps the tables valid (nothing requires a referenced file to exist). */
  lemma RemoveRowsKeepsTablesValid(files: map<int, File>, fastq: map<int, FastqAnalysis>, fasta: map<int, FastaAnalysis>,
                                   nextFileId: int, nextFastqId: int, nextFastaId: int, fileIds: set<int>, analysisIds: set<int>)
    requires TablesValid(files, fastq, fasta, nextFileId, nextFastqId, nextFastaId)
    ensures TablesValid(files - fileIds, fastq - analysisIds, fasta, nextFileId, nextFastqId, nextFastaId)
  {
  }

  /** A FASTQ analysis whose 6-tuple is new and whose names copy its existing files keeps the tables valid. */
  lemma InsertFastqAnalysisKeepsTablesValid(files: map<int, File>, fastq: map<int, FastqAnalysis>, fasta: map<int, FastaAnalysis>,
                                            nextFileId: int, nextFastqId: int, nextFastaId: int, a: FastqAnalysis)
    requires TablesValid(files, fastq, fasta, nextFileId, nextFastqId, nextFastaId)
    requires a.primerFileId in files && files[a.primerFileId].filename == a.primerFilename
    requires a.referenceFileId in files && files[a.referenceFileId].filename == a.referenceFilename
    requires forall id :: id in fastq ==> KeyOf(fastq[id]) != KeyOf(a)
    ensures nextFastqId !in fastq
    ensures TablesValid(files, fastq[nextFastqId := a], fasta, nextFileId, nextFastqId + 1, nextFastaId)
  {
  }

  /** Storing the text of the user's analysis of a file they own, in place or as a new row, keeps the tables valid. */
  lemma UpsertFastaKeepsTablesValid(files: map<int, File>, fastq: map<int, FastqAnalysis>, fasta: map<int, FastaAnalysis>,
                                    nextFileId: int, nextFastqId: int, nextFastaId: int, a: FastaAnalysis)
    requires TablesValid(files, fastq, fasta, nextFileId, nextFastqId, nextFastaId)
    requires a.fastaFileId in files && files[a.fastaFileId].userId == a.userId
    ensures forall id :: id in fasta && fasta[id].fastaFileId == a.fastaFileId ==> fasta[id].userId == a.userId
    ensures forall id :: id in fasta && fasta[id].fastaFileId == a.fastaFileId ==>
      TablesValid(files, fastq, fasta[id := a], nextFileId, nextFastqId, nextFastaId)
    ensures (forall id :: id in fasta ==> fasta[id].fastaFileId != a.fastaFileId) ==>
      nextFastaId !in fasta && TablesValid(files, fastq, fasta[nextFastaId := a], nextFileId, nextFastqId, nextFastaId + 1)
  {
  }

  lemma FastaFileCountInsert(files: map<int, File>, id: int, file: File)
    requires id !in files && IsFastaCategory(file.category)
    ensures FastaFileCount(files[id := file], file.userId) == FastaFileCount(files, file.userId) + 1
  {
    var u := file.userId;
    var files' := files[id := file];
    assert (set i | i in files' && files'[i].userId == u && IsFastaCategory(files'[i].category)) ==
           (set i | i in files && files[i].userId == u && IsFastaCategory(files[i].category)) + {id};
  }

  /** A path `bucket + "/" + rest` is no S3 URI when the bucket has no '/' and `rest` starts with something else. */
  lemma JoinedPathIsNotS3(bucket: string, rest: string)
    requires '/' !in bucket && rest != [] && rest[0] != '/'
    ensures !IsS3Uri(bucket + "/" + rest)
  {
    var path := bucket + "/" + rest;
    if |bucket| >= 5 {
      assert path[2] == bucket[2] && path[3] == bucket[3];
    } else if |bucket| == 4 {
      assert path[3] == bucket[3];
    } else if |bucket| == 3 {
      assert path[4] == rest[0];
    } else {
      assert path[|bucket|] == '/';
    }
  }

  class Database {
    var files: map<int, File>
    var fastqAnalyses: map<int, FastqAnalysis>
    var fastaAnalyses: map<int, FastaAnalysis>
    var nextFileId: int
    var nextFastqId: int
    var nextFastaId: int
    /** `USERDATA_BUCKET`. */
    const bucket: string

    ghost predicate Valid()
      reads this
    {
      '/' !in bucket && TablesValid(files, fastqAnalyses, fastaAnalyses, nextFileId, nextFastqId, nextFastaId)
    }

    constructor (userdataBucket: string)
      requires '/' !in userdataBucket
      ensures Valid()
      ensures bucket == userdataBucket
      ensures files == map[] && fastqAnalyses == map[] && fastaAnalyses == map[]
    {
      bucket := userdataBucket;
      files := map[];
      fastqAnalyses := map[];
      fastaAnalyses := map[];
      nextFileId := 1;
      nextFastqId := 1;
      nextFastaId := 1;
    }

    /** A new file row under the next id. */
    method InsertFile(file: File) returns (id: int)
      requires Valid()
      requires IsFastaCategory(file.category) ==> !HasFileNamed(files, file.userId, file.filename)
      modifies this
      ensures Valid()
      ensures id == old(nextFileId) && id !in old(files)
      ensures files == old(files)[id := file] && nextFileId == id + 1
      ensures fastqAnalyses == old(fastqAnalyses) && fastaAnalyses == old(fastaAnalyses)
      ensures nextFastqId == old(nextFastqId) && nextFastaId == old(nextFastaId)
    {
      InsertFileKeepsTablesValid(files, fastqAnalyses, fastaAnalyses, nextFileId, nextFastqId, nextFastaId, file);
      id := nextFileId;
      files := files[id := file];
      nextFileId := nextFileId + 1;
    }

    // -------------------------------------------------------------------------
    // POST /upload

    /**
     * `POST /upload` for the authenticated `userId`. The put happens only when every check
     * passes; an S3 412 (the key exists) becomes 409; the row is the only change, and only
     * when the put and the insert both succeed.
     */
    method Upload(userId: nat, category: string, originalName: Option<string>, putReply: S3Reply, insertFails: bool)
      returns (reply: Reply<UploadSaved>, put: Option<Location>)
      requires Valid()
      modifies this
      ensures Valid()
      ensures fastqAnalyses == old(fastqAnalyses) && fastaAnalyses == old(fastaAnalyses)
      ensures nextFastqId == old(nextFastqId) && nextFastaId == old(nextFastaId)
      ensures UploadRejection(old(files), userId, category, originalName).Some? ==>
        put.None? && reply == Failure(400, UploadRejection(old(files), userId, category, originalName).value)
      ensures put.Some? <==> UploadRejection(old(files), userId, category, originalName).None?
      ensures put.Some? ==> put.value == Location(bucket, UploadKey(userId, category, NormalizeFilename(originalName.value)))
      ensures put.Some? && putReply.S3Error? ==>
        reply == Failure(if putReply.httpStatus == Some(412) then 409 else 500,
                         if putReply.httpStatus == Some(412) then "File already exists (not overwritten)" else "Failed to save file")
      ensures put.Some? && putReply.S3Ok? && insertFails ==> reply == Failure(500, "Failed to save file")
      ensures reply.Success? <==> put.Some? && putReply.S3Ok? && !insertFails
      ensures reply.Success? ==>
        var name := NormalizeFilename(originalName.value);
        var id := old(nextFileId);
        id !in old(files) &&
        files == old(files)[id := File(userId, name, S3Uri(put.value), CategoryOf(category).value)] &&
        nextFileId == id + 1 &&
        reply.value == UploadSaved(id, name, CategoryOf(category).value) &&
        FastaFileCount(files, userId) == old(FastaFileCount(files, userId)) + 1 <= 6
      ensures !reply.Success? ==> files == old(files) && nextFileId == old(nextFileId)
    {
      put := None;
      var rejection := UploadRejection(files, userId, category, originalName);
      if rejection.Some? {
        return Failure(400, rejection.value), put;
      }
      var name := NormalizeFilename(originalName.value);
      var s3Key := UploadKey(userId, category, name);
      put := Some(Location(bucket, s3Key));
      if putReply.S3Error? {
        if putReply.httpStatus == Some(412) {
          return Failure(409, "File already exists (not overwritten)"), put;
        }
        return Failure(500, "Failed to save file"), put;
      }
      var fileCategory := CategoryOf(category).value;
      var s3Uri := S3Uri(Location(bucket, s3Key));
      if insertFails {
        return Failure(500, "Failed to save file"), put;
      }
      FastaFileCountInsert(files, nextFileId, File(userId, name, s3Uri, fileCategory));
      var id := InsertFile(File(userId, name, s3Uri, fileCategory));
      reply := Success(UploadSaved(id, name, fileCategory));
    }

    // -------------------------------------------------------------------------
    // DELETE /delete/:fileId

    /**
     * `DELETE /delete/:fileId` (no ownership check): the object is deleted first, a 404 from S3
     * counting as already gone; the row is removed only when that and the row delete succeed.
     */
    method DeleteFile(fileId: int, s3Reply: S3Reply, rowDeleteFails: bool) returns (reply: Reply<string>, delete: DeleteOutcome)
      requires Valid()
      modifies this
      ensures Valid()
      ensures fastqAnalyses == old(fastqAnalyses) && fastaAnalyses == old(fastaAnalyses)
      ensures nextFileId == old(nextFileId) && nextFastqId == old(nextFastqId) && nextFastaId == old(nextFastaId)
      ensures fileId !in old(files) ==> reply == Failure(404, "File not found") && delete == DeleteOutcome(None, false)
      ensures fileId in old(files) ==> delete == DeleteFromS3(old(files)[fileId].path, s3Reply)
      ensures fileId in old(files) && (delete.threw || rowDeleteFails) ==> reply == Failure(500, "Internal server error")
      ensures reply.Success? <==> fileId in old(files) && !delete.threw && !rowDeleteFails
      ensures reply.Success? ==> reply.value == "file deleted successfully" && files == old(files) - {fileId}
      ensures !reply.Success? ==> files == old(files)
    {
      delete := DeleteOutcome(None, false);
      if fileId !in files {
        return Failure(404, "File not found"), delete;
      }
      var filePath := files[fileId].path;
      delete := DeleteFromS3(filePath, s3Reply);
      if delete.threw || rowDeleteFails {
        return Failure(500, "Internal server error"), delete;
      }
      RemoveRowsKeepsTablesValid(files, fastqAnalyses, fastaAnalyses, nextFileId, nextFastqId, nextFastaId, {fileId}, {});
      files := files - {fileId};
      reply := Success("file deleted successfully");
    }

    // -------------------------------------------------------------------------
    // DELETE /delete-fastq-analysis/:id

    /**
     * `DELETE /delete-fastq-analysis/:id`: for the owner, the analysis row and then its linked
     * R1/R2 file rows are removed; S3 objects are deleted best effort (`failAt` is the request
     * that rejects, which is only logged) and other paths are handed to the local unlink loop.
     */
    method DeleteFastqAnalysis(userId: nat, analysisId: int, failAt: Option<nat>)
      returns (reply: Reply<bool>, sent: seq<Batch>, localPaths: seq<string>)
      requires Valid()
      modifies this
      ensures Valid()
      ensures fastaAnalyses == old(fastaAnalyses)
      ensures nextFileId == old(nextFileId) && nextFastqId == old(nextFastqId) && nextFastaId == old(nextFastaId)
      ensures !(analysisId in old(fastqAnalyses) && old(fastqAnalyses)[analysisId].userId == userId) ==>
        reply == Failure(404, "Analysis not found") && sent == [] && localPaths == [] &&
        files == old(files) && fastqAnalyses == old(fastqAnalyses)
      ensures analysisId in old(fastqAnalyses) && old(fastqAnalyses)[analysisId].userId == userId ==>
        var a := old(fastqAnalyses)[analysisId];
        var paths := LinkedPaths(old(files), a);
        reply == Success(true) &&
        fastqAnalyses == old(fastqAnalyses) - {analysisId} &&
        files == old(files) - LinkedFileIds(a) &&
        sent == SentBatches(DeletePlan(AsOptions(FilterS3(paths))), failAt) &&
        localPaths == FilterLocal(paths)
    {
      sent, localPaths := [], [];
      if analysisId !in fastqAnalyses || fastqAnalyses[analysisId].userId != userId {
        return Failure(404, "Analysis not found"), sent, localPaths;
      }
      var analysis := fastqAnalyses[analysisId];
      var fileIdsToDelete := LinkedFileIds(analysis);
      var paths := LinkedPaths(files, analysis);
      RemoveRowsKeepsTablesValid(files, fastqAnalyses, fastaAnalyses, nextFileId, nextFastqId, nextFastaId,
                                 fileIdsToDelete, {analysisId});
      fastqAnalyses := fastqAnalyses - {analysisId};
      files := files - fileIdsToDelete;
      var s3Uris := FilterS3(paths);
      localPaths := FilterLocal(paths);
      if |s3Uris| > 0 {
        var completed;
        sent, completed := DeleteManyFromS3(AsOptions(s3Uris), failAt);
      } else {
        assert DeletePlan(AsOptions(s3Uris)) == [];
      }
      reply := Success(true);
    }

    // -------------------------------------------------------------------------
    // POST /create-fastq

    predicate Owns(userId: nat, fileId: int)
      reads this
    {
      fileId in files && files[fileId].userId == userId
    }

    predicate HasAnalysisKey(key: FastqKey)
      reads this
    {
      exists id :: id in fastqAnalyses && KeyOf(fastqAnalyses[id]) == key
    }

    /** The reply to a request whose 6-tuple is already stored under `id`. */
    function ExistingReply(id: int): CreateFastqBody
      requires id in fastqAnalyses
      reads this
    {
      var a := fastqAnalyses[id];
      AlreadyExists(a.result, LinkedRef(files, a.fastqFileR1Id), LinkedRef(files, a.fastqFileR2Id))
    }

    /** The two FASTQ rows of a run, each inserted unless its insert fails (`Promise.all` runs both). */
    method InsertFastqFiles(userId: nat, r1Path: string, r2Path: string, r1Fails: bool, r2Fails: bool)
      returns (r1Id: int, r2Id: int)
      requires Valid()
      modifies this
      ensures Valid()
      ensures files == FastqRowsAdded(old(files), old(nextFileId), userId, r1Path, r2Path, r1Fails, r2Fails)
      ensures nextFileId == old(nextFileId) + (if r1Fails then 0 else 1) + (if r2Fails then 0 else 1)
      ensures !r1Fails && !r2Fails ==> r1Id == old(nextFileId) && r2Id == old(nextFileId) + 1
      ensures fastqAnalyses == old(fastqAnalyses) && fastaAnalyses == old(fastaAnalyses)
      ensures nextFastqId == old(nextFastqId) && nextFastaId == old(nextFastaId)
    {
      r1Id, r2Id := 0, 0;
      if !r1Fails {
        r1Id := InsertFile(File(userId, Basename(r1Path), r1Path, Fastq));
      }
      if !r2Fails {
        r2Id := InsertFile(File(userId, Basename(r2Path), r2Path, Fastq));
      }
    }

    /**
     * The rows of a successful run: the two FASTQ files, then the analysis, which is inserted only
     * when both files were.
     */
    method SaveFastqRun(userId: nat, key: FastqKey, report: FastqReport, r1Path: string, r2Path: string,
                        primerFilename: string, referenceFilename: string, safeName: string,
                        r1Fails: bool, r2Fails: bool, analysisFails: bool)
      returns (reply: Reply<CreateFastqBody>)
      requires Valid()
      requires key.userId == userId && !HasAnalysisKey(key)
      requires Owns(userId, key.primerFileId) && Owns(userId, key.referenceFileId)
      requires files[key.primerFileId].filename == primerFilename && files[key.referenceFileId].filename == referenceFilename
      modifies this
      ensures Valid()
      ensures fastaAnalyses == old(fastaAnalyses) && nextFastaId == old(nextFastaId)
      ensures files == FastqRowsAdded(old(files), old(nextFileId), userId, r1Path, r2Path, r1Fails, r2Fails)
      ensures nextFileId == old(nextFileId) + (if r1Fails then 0 else 1) + (if r2Fails then 0 else 1)
      ensures r1Fails || r2Fails || analysisFails ==>
        reply == Failure(500, "Failed to save FASTQ file") && fastqAnalyses == old(fastqAnalyses) && nextFastqId == old(nextFastqId)
      ensures !(r1Fails || r2Fails || analysisFails) ==>
        var n := old(nextFileId);
        reply == Success(Created(safeName, n, n + 1, r1Path, r2Path)) &&
        fastqAnalyses == old(fastqAnalyses)[old(nextFastqId) := FastqAnalysis(
          userId, key.primerFileId, key.referenceFileId, report, key.analysisName, key.sampleName, key.sequenceCount,
          Some(n), Some(n + 1), primerFilename, referenceFilename)] &&
        nextFastqId == old(nextFastqId) + 1
    {
      var n := nextFileId;
      ghost var q, fq := nextFastqId, fastqAnalyses;
      assert key.primerFileId < nextFileId && key.referenceFileId < nextFileId;
      FastqRowsAddedKeeps(files, nextFileId, userId, r1Path, r2Path, r1Fails, r2Fails, key.primerFileId);
      FastqRowsAddedKeeps(files, nextFileId, userId, r1Path, r2Path, r1Fails, r2Fails, key.referenceFileId);
      var r1Id, r2Id := InsertFastqFiles(userId, r1Path, r2Path, r1Fails, r2Fails);
      if r1Fails || r2Fails || analysisFails {
        reply := Failure(500, "Failed to save FASTQ file");
      } else {
        assert r1Id == n && r2Id == n + 1 && fastqAnalyses == fq && nextFastqId == q;
        var analysis := FastqAnalysis(userId, key.primerFileId, key.referenceFileId, report, key.analysisName,
                                      key.sampleName, key.sequenceCount, Some(n), Some(n + 1), primerFilename, referenceFilename);
        assert KeyOf(analysis) == key;
        reply := Success(Created(safeName, n, n + 1, r1Path, r2Path));
        var analysisId := InsertFastqAnalysis(analysis);
        assert fastqAnalyses == fq[q := analysis];
      }
    }

    /** A new FASTQ analysis row under the next id. */
    method InsertFastqAnalysis(a: FastqAnalysis) returns (id: int)
      requires Valid()
      requires a.primerFileId in files && files[a.primerFileId].filename == a.primerFilename
      requires a.referenceFileId in files && files[a.referenceFileId].filename == a.referenceFilename
      requires !HasAnalysisKey(KeyOf(a))
      modifies this
      ensures Valid()
      ensures id == old(nextFastqId) && fastqAnalyses == old(fastqAnalyses)[id := a] && nextFastqId == id + 1
      ensures files == old(files) && fastaAnalyses == old(fastaAnalyses)
      ensures nextFileId == old(nextFileId) && nextFastaId == old(nextFastaId)
    {
      InsertFastqAnalysisKeepsTablesValid(files, fastqAnalyses, fastaAnalyses, nextFileId, nextFastqId, nextFastaId, a);
      id := nextFastqId;
      fastqAnalyses := fastqAnalyses[id := a];
      nextFastqId := nextFastqId + 1;
    }

    /**
     * `POST /create-fastq`. The stored 6-tuple (with the raw `sampleName`) is looked up before
     * anything else; then both files must belong to the user; then create_fastq.py runs on the
     * sanitised name and its `outcome` is mapped to a reply, rows being written only on success.
     */
    method CreateFastqAnalysis(userId: nat, primerFileId: int, referenceFileId: int, sampleName: string,
                               sequenceCount: int, analysisName: string, outcome: ScriptOutcome<FastqReport>,
                               r1Fails: bool, r2Fails: bool, analysisFails: bool)
      returns (reply: Reply<CreateFastqBody>, call: Option<FastqCall>)
      requires Valid()
      modifies this
      ensures Valid()
      ensures fastaAnalyses == old(fastaAnalyses) && nextFastaId == old(nextFastaId)
      ensures var key := FastqKey(userId, sampleName, primerFileId, referenceFileId, sequenceCount, analysisName);
        old(HasAnalysisKey(key)) ==>
          call.None? && files == old(files) && fastqAnalyses == old(fastqAnalyses) &&
          nextFileId == old(nextFileId) && nextFastqId == old(nextFastqId) &&
          exists id :: id in old(fastqAnalyses) && KeyOf(old(fastqAnalyses)[id]) == key && reply == Success(old(ExistingReply(id)))
      ensures var key := FastqKey(userId, sampleName, primerFileId, referenceFileId, sequenceCount, analysisName);
        !old(HasAnalysisKey(key)) && !(old(Owns(userId, primerFileId)) && old(Owns(userId, referenceFileId))) ==>
          call.None? && reply == Failure(404, "Primer or reference file not found or not owned by user")
      ensures call.Some? <==>
        var key := FastqKey(userId, sampleName, primerFileId, referenceFileId, sequenceCount, analysisName);
        !old(HasAnalysisKey(key)) && old(Owns(userId, primerFileId)) && old(Owns(userId, referenceFileId))
      ensures call.Some? ==>
        call.value == FastqCall(old(files)[primerFileId].path, old(files)[referenceFileId].path,
                                FastqPrefix(bucket, userId), SafeName(sampleName), sequenceCount)
      ensures call.Some? && outcome.ExecError? ==> reply == Failure(500, "Processing failed")
      ensures call.Some? && outcome == Stdout(None) ==> reply == Failure(500, "Invalid analysis result format ")
      ensures call.Some? && outcome.Stdout? && outcome.json.Some? && outcome.json.value.status != "success" ==>
        reply == Failure(500, FailureMessage(outcome.json.value.error))
      ensures (call.Some? && outcome.Stdout? && outcome.json.Some? && outcome.json.value.status == "success" &&
               ReportedPaths(outcome.json.value).None?) ==> reply == NoReply
      ensures !(call.Some? && SavedRun(outcome).Some?) ==>
        files == old(files) && fastqAnalyses == old(fastqAnalyses) &&
        nextFileId == old(nextFileId) && nextFastqId == old(nextFastqId)
      ensures call.Some? && SavedRun(outcome).Some? ==>
        var (report, r1Path, r2Path) := SavedRun(outcome).value;
        var n := old(nextFileId);
        files == FastqRowsAdded(old(files), n, userId, r1Path, r2Path, r1Fails, r2Fails) &&
        nextFileId == n + (if r1Fails then 0 else 1) + (if r2Fails then 0 else 1) &&
        if r1Fails || r2Fails || analysisFails then
          reply == Failure(500, "Failed to save FASTQ file") &&
          fastqAnalyses == old(fastqAnalyses) && nextFastqId == old(nextFastqId)
        else
          reply == Success(Created(SafeName(sampleName), n, n + 1, r1Path, r2Path)) &&
          fastqAnalyses == old(fastqAnalyses)[old(nextFastqId) := FastqAnalysis(
            userId, primerFileId, referenceFileId, report, analysisName, sampleName, sequenceCount,
            Some(n), Some(n + 1), old(files)[primerFileId].filename, old(files)[referenceFileId].filename)] &&
          nextFastqId == old(nextFastqId) + 1
    {
      call := None;
      var key := FastqKey(userId, sampleName, primerFileId, referenceFileId, sequenceCount, analysisName);
      if exists id :: id in fastqAnalyses && KeyOf(fastqAnalyses[id]) == key {
        var id :| id in fastqAnalyses && KeyOf(fastqAnalyses[id]) == key;
        return Success(ExistingReply(id)), call;
      }
      if !(primerFileId in files && files[primerFileId].userId == userId) ||
         !(referenceFileId in files && files[referenceFileId].userId == userId) {
        return Failure(404, "Primer or reference file not found or not owned by user"), call;
      }
      var primerFile, referenceFile := files[primerFileId], files[referenceFileId];
      var safeName := SafeName(sampleName);
      call := Some(FastqCall(primerFile.path, referenceFile.path, FastqPrefix(bucket, userId), safeName, sequenceCount));
      var run := SavedRun(outcome);
      if run.Some? {
        var (result, r1Path, r2Path) := run.value;
        reply := SaveFastqRun(userId, key, result, r1Path, r2Path,
                              primerFile.filename, referenceFile.filename, safeName, r1Fails, r2Fails, analysisFails);
        return;
      }
      match outcome
      case ExecError =>
        reply := Failure(500, "Processing failed");
      case Stdout(None) =>
        reply := Failure(500, "Invalid analysis result format ");
      case Stdout(Some(result)) =>
        reply := if result.status != "success" then Failure(500, FailureMessage(result.error)) else NoReply;
    }

    // -------------------------------------------------------------------------
    // POST /analyze-fasta

    /**
     * `POST /analyze-fasta`: for a file of the user's, process_fasta.py runs on its path and the
     * count it reports is upserted as the text of the user's single analysis of that file. A
     * failing upsert escapes the callback, so nothing is sent.
     */
    method AnalyzeFasta(userId: nat, fileId: int, outcome: ScriptOutcome<FastaReport>, upsertFails: bool)
      returns (reply: Reply<Option<nat>>, call: Option<string>)
      requires Valid()
      modifies this
      ensures Valid()
      ensures files == old(files) && fastqAnalyses == old(fastqAnalyses)
      ensures nextFileId == old(nextFileId) && nextFastqId == old(nextFastqId)
      ensures !old(Owns(userId, fileId)) ==> reply == Failure(404, "FASTA file not found.") && call.None?
      ensures call.Some? <==> old(Owns(userId, fileId))
      ensures call.Some? ==> call.value == old(files)[fileId].path
      ensures call.Some? && outcome.ExecError? ==> reply == Failure(500, "Processing failed")
      ensures call.Some? && outcome == Stdout(None) ==> reply == Failure(500, "Invalid analysis result format ")
      ensures call.Some? && outcome.Stdout? && outcome.json.Some? && upsertFails ==> reply == NoReply
      ensures reply.Success? <==> call.Some? && outcome.Stdout? && outcome.json.Some? && !upsertFails
      ensures !reply.Success? ==> fastaAnalyses == old(fastaAnalyses) && nextFastaId == old(nextFastaId)
      ensures reply.Success? ==>
        reply.value == outcome.json.value.sequenceCount &&
        fastaAnalyses == FastaUpsert(old(fastaAnalyses), old(nextFastaId),
                                     FastaAnalysis(userId, fileId, FastaResultText(outcome.json.value.sequenceCount))) &&
        nextFastaId == old(nextFastaId) + (if HasFastaAnalysisOf(old(fastaAnalyses), fileId) then 0 else 1)
    {
      call := None;
      if !(fileId in files && files[fileId].userId == userId) {
        return Failure(404, "FASTA file not found."), call;
      }
      call := Some(files[fileId].path);
      match outcome
      case ExecError =>
        reply := Failure(500, "Processing failed");
      case Stdout(None) =>
        reply := Failure(500, "Invalid analysis result format ");
      case Stdout(Some(result)) =>
        if upsertFails {
          return NoReply, call;
        }
        UpsertFastaAnalysis(FastaAnalysis(userId, fileId, FastaResultText(result.sequenceCount)));
        reply := Success(result.sequenceCount);
    }

    /** `prisma.fastaAnalysis.upsert` on the key (userId, fastaFileId). */
    method UpsertFastaAnalysis(a: FastaAnalysis)
      requires Valid()
      requires a.fastaFileId in files && files[a.fastaFileId].userId == a.userId
      modifies this
      ensures Valid()
      ensures fastaAnalyses == FastaUpsert(old(fastaAnalyses), old(nextFastaId), a)
      ensures nextFastaId == old(nextFastaId) + (if HasFastaAnalysisOf(old(fastaAnalyses), a.fastaFileId) then 0 else 1)
      ensures files == old(files) && fastqAnalyses == old(fastqAnalyses)
      ensures nextFileId == old(nextFileId) && nextFastqId == old(nextFastqId)
    {
      UpsertFastaKeepsTablesValid(files, fastqAnalyses, fastaAnalyses, nextFileId, nextFastqId, nextFastaId, a);
      if exists id :: id in fastaAnalyses && fastaAnalyses[id].userId == a.userId && fastaAnalyses[id].fastaFileId == a.fastaFileId {
        var id :| id in fastaAnalyses && fastaAnalyses[id].userId == a.userId && fastaAnalyses[id].fastaFileId == a.fastaFileId;
        FastaUpsertAt(fastaAnalyses, nextFastaId, a, id);
        fastaAnalyses := fastaAnalyses[id := a];
      } else {
        fastaAnalyses := fastaAnalyses[nextFastaId := a];
        nextFastaId := nextFastaId + 1;
      }
    }

    // -------------------------------------------------------------------------
    // listing queries

    function FilesIn(userId: nat, category: Category): map<int, string>
      reads this
    {
      map id | id in files && files[id].userId == userId && files[id].category == category :: files[id].filename
    }

    /** `GET /files`: the user's PRIMER, GENOMIC and PCR files as `{ id, filename }`. */
    function ListFiles(userId: nat): FileListing
      reads this
    {
      FileListing(FilesIn(userId, Primer), FilesIn(userId, Genomic), FilesIn(userId, Pcr))
    }

    /** The three lists of `GET /files` never share a file and together hold exactly the user's files other than FASTQ files. */
    lemma ListFilesPartition(userId: nat)
      ensures var l := ListFiles(userId);
        l.primer.Keys !! l.genomic.Keys && l.primer.Keys !! l.pcr.Keys && l.genomic.Keys !! l.pcr.Keys &&
        l.primer.Keys + l.genomic.Keys + l.pcr.Keys == set id | id in files && files[id].userId == userId && files[id].category != Fastq
      ensures forall id :: id in ListFiles(userId).primer ==> ListFiles(userId).primer[id] == files[id].filename
    {
    }

    /** Under `Valid`, the single FASTA analysis of a file, if any. */
    function FastaResultOf(fileId: int): Option<string>
      requires Valid()
      reads this
    {
      if exists id :: id in fastaAnalyses && fastaAnalyses[id].fastaFileId == fileId then
        var id :| id in fastaAnalyses && fastaAnalyses[id].fastaFileId == fileId;
        Some(fastaAnalyses[id].result)
      else None
    }

    /** `GET /fasta-files`: the user's PRIMER and GENOMIC files with their analysis text and the FASTQ analyses using them. */
    function FastaFiles(userId: nat): (views: map<int, FastaFileView>)
      requires Valid()
      reads this
      ensures forall id :: id in views <==> id in files && files[id].userId == userId && IsFastaCategory(files[id].category)
    {
      map id | id in files && files[id].userId == userId && IsFastaCategory(files[id].category) ::
        FastaFileView(files[id], FastaResultOf(id),
          set a | a in fastqAnalyses && fastqAnalyses[a].primerFileId == id,
          set a | a in fastqAnalyses && fastqAnalyses[a].referenceFileId == id)
    }

    /** After an analysis, the file's listing shows exactly the text the upsert stored. */
    lemma FastaFilesShowStoredResult(userId: nat, fileId: int, analysisId: int)
      requires Valid()
      requires fileId in FastaFiles(userId)
      requires analysisId in fastaAnalyses && fastaAnalyses[analysisId].fastaFileId == fileId
      ensures FastaFiles(userId)[fileId].analysisResult == Some(fastaAnalyses[analysisId].result)
    {
    }

    /** `GET /fastq-files`: the user's analyses with hydrated primer and reference names. */
    function FastqFiles(userId: nat): map<int, FastqView>
      reads this
    {
      map id | id in fastqAnalyses && fastqAnalyses[id].userId == userId :: Hydrate(files, fastqAnalyses[id])
    }

    /**
     * A hydrated name is the name stored with the analysis while the file exists and that name
     * with " (Deleted)" appended once it is gone; the two cases are told apart by the suffix.
     */
    lemma FastqFilesHydration(userId: nat, id: int)
      requires Valid()
      requires id in FastqFiles(userId)
      ensures var a := fastqAnalyses[id];
        var v := FastqFiles(userId)[id];
        (v.primerFilename == a.primerFilename <==> a.primerFileId in files) &&
        (v.primerFilename != a.primerFilename ==> v.primerFilename == a.primerFilename + " (Deleted)") &&
        (v.referenceFilename == a.referenceFilename <==> a.referenceFileId in files) &&
        (v.referenceFilename != a.referenceFilename ==> v.referenceFilename == a.referenceFilename + " (Deleted)")
    {
      var a := fastqAnalyses[id];
      assert |a.primerFilename + " (Deleted)"| > |a.primerFilename|;
      assert |a.referenceFilename + " (Deleted)"| > |a.referenceFilename|;
    }
  }

  // ---------------------------------------------------------------------------
  // facts that connect the routes

  /** An uploaded row's path parses back to the bucket and key of its put, so `/delete/:fileId` deletes exactly that object. */
  lemma UploadedPathDeletesItsObject(bucket: string, userId: nat, category: string, name: string, reply: S3Reply)
    requires '/' !in bucket
    ensures var loc := Location(bucket, UploadKey(userId, category, name));
      DeleteFromS3(S3Uri(loc), reply).sent == Some(loc) &&
      (DeleteFromS3(S3Uri(loc), reply).threw <==> reply.S3Error? && reply.httpStatus != Some(404))
  {
    ParseS3UriRoundTrip(Location(bucket, UploadKey(userId, category, name)));
  }

  /**
   * The paths create_fastq.py returns for the server's prefix are never S3 URIs (the prefix has
   * no scheme), so the analysis cascade sends them to the local unlink loop, and the basename the
   * server stores is the generated file name.
   */
  lemma FastqOutputPaths(bucket: string, userId: nat, sampleName: string, sampleNum: nat, read: string)
    requires '/' !in bucket && '/' !in read
    ensures var path := OutputPath(FastqPrefix(bucket, userId), FastqFilename(SafeName(sampleName), sampleNum, read));
      !IsS3Uri(path) && Basename(path) == FastqFilename(SafeName(sampleName), sampleNum, read)
  {
    var u := NatToString(userId);
    assert IsDigit(u[0]);
    var name := FastqFilename(SafeName(sampleName), sampleNum, read);
    assert name != [] by { assert |name| >= |"_001.fastq.gz"|; }
    PathUnderPrefix(bucket, u, name);
  }

  /**
   * Under the assumed `parseS3Uri`, `/delete/:fileId` never removes a generated FASTQ row: its
   * path is not an S3 URI, so `deleteFromS3` throws before sending a request and `DeleteFile`
   * answers 500 and keeps the row.
   */
  lemma FastqRowDeleteThrows(bucket: string, userId: nat, sampleName: string, sampleNum: nat, read: string, reply: S3Reply)
    requires '/' !in bucket && '/' !in read
    ensures DeleteFromS3(OutputPath(FastqPrefix(bucket, userId), FastqFilename(SafeName(sampleName), sampleNum, read)), reply)
      == DeleteOutcome(None, true)
  {
    FastqOutputPaths(bucket, userId, sampleName, sampleNum, read);
  }

  lemma PathUnderPrefix(bucket: string, u: string, name: string)
    requires '/' !in bucket && u != [] && u[0] != '/' && name != [] && '/' !in name
    ensures !IsS3Uri(bucket + "/" + u + "/fastq" + "/" + name)
    ensures Basename(bucket + "/" + u + "/fastq" + "/" + name) == name
  {
    var rest := u + "/fastq/" + name;
    assert bucket + "/" + u + "/fastq" + "/" + name == bucket + "/" + rest;
    assert rest[0] == u[0];
    JoinedPathIsNotS3(bucket, rest);
    BasenameOfJoin(bucket + "/" + u + "/fastq", name);
  }

  /** A generated FASTQ name is never the normalised name of an upload: it contains upper-case letters. */
  lemma FastqNameIsNeverNormalized(sampleName: string, sampleNum: nat, read: string, uploadName: string)
    ensures FastqFilename(sampleName, sampleNum, read) != NormalizeFilename(uploadName)
  {
    var name := FastqFilename(sampleName, sampleNum, read);
    var p := |sampleName| + 1;
    assert name[p] == 'S';
    var normalized := NormalizeFilename(uploadName);
  }
}
