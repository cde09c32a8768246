# DrySeq backend core in Dafny

DrySeq is a small web service for simulated sequencing runs. Users upload FASTA files (primer sets and
genomic references). In silico PCR turns them into amplicons, and from those the service simulates paired
Illumina FASTQ reads. This project models three things and proves properties of them:

- the bookkeeping of the Express backend (`backend/server.js`): the file, FASTQ-analysis and FASTA-analysis
  tables, the routes that change them, and the listing queries;
- the deterministic parts of the FASTQ simulator `backend/scripts/create_fastq.py`;
- the deterministic parts of the PCR script `backend/scripts/pcr.py`.

Modules, one per file:

- `common.dfy` (`Common`): optional values, results, decimal rendering of naturals, ASCII case mapping.
- `filenames.dfy` (`Filenames`): `normalizeFilename` and the POSIX `path.basename` under it, and the
  `safeName` sanitiser of `/create-fastq`.
- `blobstore.dfy` (`BlobStore`): S3 locators, `deleteFromS3`, and `deleteManyFromS3` with its bucket
  grouping and 1000-key batches.
- `amplicons.dfy` (`Amplicons`): insertion-ordered Python dicts, `parse_fasta`, `find_primer_locations`
  and `generate_artificial_amplicons`. The two scripts carry identical copies of these.
- `fastq.dfy` (`CreateFastq`): file and read names, the 251-base read construction, the write loop and
  the report of `create_fastq`.
- `pcr.dfy` (`Pcr`): `write_pcr_fasta` and the report of `run_pcr`.
- `server.dfy` (`Server`): the class `Database`, one map per table plus an autoincrement counter per
  table. Its methods are the state-changing routes. Its functions are the read-only projections.
  `Valid()` is the table invariant every route keeps:
  - ids below the counters;
  - references only to issued file ids;
  - denormalised file names that match live files;
  - unique FASTQ idempotency keys;
  - one FASTA analysis per file;
  - distinct FASTA names per user.

Everything outside the process is an input of the method that performs it:

- the S3 reply to a put or delete (`S3Reply`), and the index of the DeleteObjects request that rejects
  (`failAt`);
- whether a database insert or delete fails;
- the outcome of the Python collaborator (`ScriptOutcome`: exec error, non-JSON stdout, or the parsed
  report);
- the FASTA reader's records;
- the Aho-Corasick automaton's `iter` output (a function `scan` from the primer dict and a reference to
  the hits); an empty primer dict builds no automaton, and its `iter` raises;
- whether opening an output file raises (`openError`);
- Biopython's complement table (a function `complement`);
- every random draw (`ReadDraws`, `sampleDraw`).

Behaviours of the code that the model keeps as they are:

- deletes are hard deletes, with no tombstones;
- `/create-fastq` looks up the idempotency key before the ownership check;
- the key holds the raw `sampleName`, not the sanitised one;
- `/delete/:fileId` has no ownership check;
- a failing DeleteObjects request is not retried key by key;
- a unique-key clash on the analysis insert is a 500 error, not a fall-back to the winning row;
- the FASTQ output prefix `<bucket>/<userId>/fastq` has no `s3://` scheme, so `smart_open` treats the
  two paths as local paths relative to the script's working directory, and the analysis cascade hands
  them to the local unlink loop (`Server.FastqOutputPaths`);
- for the same reason, under the assumed `parseS3Uri`, `/delete/:fileId` on a generated FASTQ row
  throws before any S3 request, answers 500 and keeps the row (`Server.FastqRowDeleteThrows`);
- `deleteManyFromS3` sends buckets in `Object.entries` order (array-index names such as "123" first,
  ascending), and a bucket named after an `Object.prototype` property makes its reducer throw before
  any request.

## Model

| member | source | states |
|---|---|---|
| Common.NatToString | backend/scripts/create_fastq.py:128 | The decimal text of a number is non-empty and made of digits only. |
| Common.DecimalRoundTrip | backend/scripts/create_fastq.py:128 | The decimal text reads back as the number it renders. |
| Common.NatToStringInjective | backend/scripts/create_fastq.py:128 | Different numbers render as different texts, so sample numbers and ids are told apart by their text. |
| Common.Lower | backend/server.js:54 | `toLowerCase` (ASCII): the same length, each character lowered on its own. |
| Common.Upper | backend/scripts/create_fastq.py:143 | `upper()` (ASCII): the same length, each character raised on its own. |
| Filenames.TrimTrailingSlashes | backend/server.js:53 | The result is a prefix of the path, does not end in '/', and everything cut off is '/'. |
| Filenames.AfterLastSlash | backend/server.js:53 | The result is a suffix of the path that holds no '/'. |
| Filenames.Basename | backend/server.js:53 | `path.posix.basename` contains no '/' and is no longer than the path. |
| Filenames.BasenameOfPlainName | backend/server.js:53 | A name without '/' is its own basename. |
| Filenames.BasenameOfJoin | backend/server.js:737-738 | The basename of `dir + "/" + name` is `name`, for a non-empty name without '/'. |
| Filenames.DropWhitespace | backend/server.js:55 | Removes exactly the leading whitespace: what is dropped is all whitespace and what remains does not start with whitespace. |
| Filenames.ReplaceDisallowed | backend/server.js:56 | Each character outside `[a-z0-9._-]` becomes '_' and every other character is kept. |
| Filenames.NormalizeFilename | backend/server.js:52-57 | A normalised name contains only `[a-z0-9._-]`, contains no '/', and is no longer than the input. |
| Filenames.CollapseWhitespaceSplit | backend/server.js:55 | Collapsing whitespace distributes over a cut that does not fall inside a whitespace run. |
| Filenames.CollapseWhitespaceRun | backend/server.js:55 | A whitespace run between non-whitespace neighbours becomes exactly one '_'. |
| Filenames.NormalizeFilenameIdempotent | backend/server.js:52-57 | Normalising a normalised name changes nothing. |
| Filenames.KeepSafeChars | backend/server.js:691 | The first `replace` of `safeName` leaves only `[A-Za-z0-9_-]` and keeps a name already made of those. |
| Filenames.StripFastqExtension | backend/server.js:691 | The extension strip returns a prefix of its input, and returns the input unchanged when it has no '.'. |
| Filenames.SafeName | backend/server.js:691 | `safeName` contains only `[A-Za-z0-9_-]`, holds no '/', and is no longer than the sample name. |
| Filenames.SafeNameStripIsNoOp | backend/server.js:691 | The extension strip of `safeName` never changes anything, because every '.' was already removed. |
| Filenames.SafeNameIdempotent | backend/server.js:691 | Sanitising a sanitised sample name changes nothing. |
| Filenames.SafeNameCollision | backend/server.js:691 | "run.A" and "runA" sanitise to the same name. |
| BlobStore.ParseS3Uri | backend/server.js:290 | Assumed `parseS3Uri`: it parses exactly the `s3://` locators, and the bucket it returns holds no '/'. |
| BlobStore.S3Uri | backend/server.js:239 | The locator the upload stores is an S3 URI. |
| BlobStore.ParseS3UriRoundTrip | backend/server.js:239 | Parsing a stored locator gives back its bucket and key. |
| BlobStore.S3UriOfParse | backend/server.js:290 | A locator with a '/' after its bucket is rebuilt exactly from its parse. |
| BlobStore.DeleteFromS3 | backend/server.js:289-298 | A request is sent exactly when the locator parses with a non-empty key, and to that location. The call throws exactly when the locator does not parse, or when the request was sent and failed with a status other than 404. |
| BlobStore.ParsedLocations | backend/server.js:301-304 | The filtered and parsed locations all have buckets without '/'. |
| BlobStore.AddKeyDistinct | backend/server.js:305-309 | One reducer step keeps the buckets of the accumulator distinct. |
| BlobStore.AddKeyKeys | backend/server.js:306-308 | One reducer step appends the key to its own bucket's list and changes no other bucket's list. |
| BlobStore.GroupedKeys | backend/server.js:305-309 | After the reducer the buckets are distinct, and each bucket's list is exactly its non-empty keys in input order. |
| BlobStore.ChunkBatchesKeys | backend/server.js:313-314 | A bucket's chunks, concatenated, are its keys from the start index on. |
| BlobStore.ChunkBatchesShape | backend/server.js:313-314 | Every chunk of a bucket holds between 1 and 1000 keys. |
| BlobStore.PlanShape | backend/server.js:311-317 | Every request of the plan holds between 1 and 1000 keys. |
| BlobStore.PlanKeys | backend/server.js:311-317 | For distinct buckets, concatenating a bucket's requests gives that bucket's key list. |
| BlobStore.KeysOfBucketNonEmpty | backend/server.js:306 | No empty key is ever grouped. |
| BlobStore.PlanAllKeys | backend/server.js:311-317 | A bucket's requests, concatenated, are the keys of all its groups in order. |
| BlobStore.AllKeysOfDistinct | backend/server.js:305-309 | With distinct buckets, a bucket's keys over all groups are its one group's list. |
| BlobStore.IndexGroups | backend/server.js:311 | The groups `Object.entries` lists first all have array-index names and come from the accumulator. |
| BlobStore.NamedGroups | backend/server.js:311 | The groups `Object.entries` lists after those have other names. |
| BlobStore.IndexGroupsKeys | backend/server.js:311 | Sorting the array-index groups keeps exactly those buckets' keys. |
| BlobStore.NamedGroupsKeys | backend/server.js:311 | The other groups keep exactly the other buckets' keys. |
| BlobStore.EntriesKeys | backend/server.js:311-317 | Sending in `Object.entries` order loses and reorders no bucket's keys. |
| BlobStore.EntriesAreOrdered | backend/server.js:311 | `Object.entries` lists array-index bucket names first, in ascending numeric order, then the others. |
| BlobStore.PlanOrdered | backend/server.js:311-317 | Requests follow the entries' order: array-index buckets' requests come first, by ascending index. |
| BlobStore.IndexBucketSentFirst | backend/server.js:300-318 | When a URI with an ordinary bucket name (say "abc") comes before one whose bucket is named like an array index (say "123"), the index-named bucket's request is sent first. |
| BlobStore.DeletePlanProperties | backend/server.js:300-318 | No request is sent when the reducer throws. Otherwise every request holds 1 to 1000 keys, no key is empty, a bucket's requests concatenated are exactly its non-empty keys in input order after the missing, empty and non-S3 locators are dropped, and array-index buckets come first in ascending order. |
| BlobStore.GroupByBucket | backend/server.js:305-309 | The reducer loop throws exactly when a location with a key has a bucket named after a property inherited from `Object.prototype` (such as "constructor"). Otherwise it computes the grouping. |
| BlobStore.SendBucket | backend/server.js:313-316 | The chunk loop sends one bucket's chunks in order, and stops after the request that rejects. |
| BlobStore.DeleteManyFromS3 | backend/server.js:300-318 | When the reducer throws, nothing is sent. Otherwise `deleteManyFromS3` sends the whole plan, in `Object.entries` order, when no request rejects, and exactly the plan's prefix up to and including the rejected request when one does. |
| Amplicons.DictSet | backend/scripts/create_fastq.py:69 | `d[k] = v`: `k` maps to `v`, no other key changes, and a new key goes last while an existing key keeps its place. |
| Amplicons.AssignAppend | backend/scripts/create_fastq.py:63-69 | Two runs of assignments one after the other equal their concatenation. |
| Amplicons.AssignLookup | backend/scripts/create_fastq.py:36 | After a run of assignments to `{}` the dict is well formed and each key holds the value of the last assignment to it. |
| Amplicons.LastValueSome | backend/scripts/create_fastq.py:36 | A key is present exactly when some assignment names it, and its value comes from one of those assignments. |
| Amplicons.ParseFasta | backend/scripts/create_fastq.py:32-37 | `parse_fasta` assigns the records in file order (pcr.py:25-29 is the same code). |
| Amplicons.ParseFastaLastWins | backend/scripts/create_fastq.py:36 | Later records with the same id replace earlier ones, and ids are distinct. |
| Amplicons.FindPrimerLocations | backend/scripts/create_fastq.py:39-60 | An empty primer dict raises the automaton's AttributeError. Otherwise forward results are each hit with `end - len(primer) + 1`, and reverse results are the same hits of automaton A by end index (pcr.py:31-52 is the same code). |
| Amplicons.PrimerLocationsSpanPrimer | backend/scripts/create_fastq.py:50-55 | For genuine hits, the reference from a forward start to the matching reverse end (inclusive) is the primer, both indices are inside the reference, and the name is that primer's. |
| Amplicons.PyIndex | backend/scripts/create_fastq.py:68 | Python slice-bound normalisation: negative bounds count from the end and every bound is clamped to the length. |
| Amplicons.PySlice | backend/scripts/create_fastq.py:68 | A Python slice is never longer than the sequence. |
| Amplicons.PySliceInRange | backend/scripts/create_fastq.py:68 | For in-range bounds a Python slice is the plain subsequence, or empty when the end is not after the start. |
| Amplicons.ItemsOf | backend/scripts/create_fastq.py:64 | `items()` lists every key in insertion order with its value. |
| Amplicons.AddRow | backend/scripts/create_fastq.py:67-69 | The inner loop assigns one amplicon per reverse result. |
| Amplicons.AddPairs | backend/scripts/create_fastq.py:66-69 | The middle loop assigns one row per forward result. |
| Amplicons.GenerateArtificialAmplicons | backend/scripts/create_fastq.py:62-70 | The nested loops raise the automaton's error when there is a reference and no primer. Otherwise they build the dict of all assignments, reference after reference (pcr.py:54-62 is the same code). |
| Amplicons.PairsFromResults | backend/scripts/create_fastq.py:66-69 | Every assignment for a reference pairs some forward result with some reverse result. |
| Amplicons.PairsComplete | backend/scripts/create_fastq.py:66-69 | Every pair of a forward and a reverse result yields an assignment. |
| Amplicons.AmpliconsFromHits | backend/scripts/create_fastq.py:62-70 | The result is a well-formed dict. Each entry is named `<ref>_<f>_<r>` after one reference's two hits, and its value is the Python slice from the first hit's start to the second hit's end index. |
| Amplicons.AssignmentFrom | backend/scripts/create_fastq.py:62-70 | Every assignment comes from a pair of hits on some reference. |
| Amplicons.AmpliconsComplete | backend/scripts/create_fastq.py:62-70 | Every pair of hits on a reference names a key of the result. |
| Amplicons.AssignmentIn | backend/scripts/create_fastq.py:62-70 | Every pair of hits on a reference is assigned under its name. |
| Amplicons.AmpliconOfGenuineHits | backend/scripts/create_fastq.py:68 | With genuine hits, an amplicon is the reference from primer `a`'s start up to but excluding primer `b`'s last base, or empty. A hit paired with itself gives its primer without the last base. |
| Amplicons.AmpliconsOfRecords | backend/scripts/create_fastq.py:177-181 | The amplicons of two record lists, when built, form a well-formed dict. |
| Amplicons.AmpliconsOfRecordsFails | backend/scripts/create_fastq.py:39-70 | Building fails exactly when there is a reference record and no primer record, and then with the automaton's error. |
| CreateFastq.FastqFilename | backend/scripts/create_fastq.py:125-128 | `<sample>_S<n>_L001_<read>_001.fastq.gz` contains no '/' when the sample name and read token contain none. |
| CreateFastq.FastqFilenamesDifferInReadToken | backend/scripts/create_fastq.py:125-133 | The R1 and R2 names of a run differ at exactly one position: '1' against '2' in the read token. |
| CreateFastq.SampleNumber | backend/scripts/create_fastq.py:131 | `randint(1, 100)` lies in 1..100. |
| CreateFastq.Tile | backend/scripts/create_fastq.py:112 | The tile lies in 1101..1200. |
| CreateFastq.XCoordinate | backend/scripts/create_fastq.py:113 | x lies in 0..4999. |
| CreateFastq.YCoordinate | backend/scripts/create_fastq.py:114 | y lies in 0..4999. |
| CreateFastq.ReadNames | backend/scripts/create_fastq.py:118-121 | Both names start with the shared header and a space. They differ only in the mate digit after it, '1' for R1 and '2' for R2. |
| CreateFastq.ReadNameGenerator.constructor | backend/scripts/create_fastq.py:108 | The counter starts at 1. |
| CreateFastq.ReadNameGenerator.GenerateReadNames | backend/scripts/create_fastq.py:110-121 | Each call returns the names of the current read number and advances the counter by one. |
| CreateFastq.Choices | backend/scripts/create_fastq.py:94-99 | `k` weighted picks, each one of the table's bases. |
| CreateFastq.OverrunSequence | backend/scripts/create_fastq.py:101-102 | The overrun has exactly `k` bases, and it raises exactly when the base table is empty. |
| CreateFastq.OverrunQualities | backend/scripts/create_fastq.py:104-105 | Exactly `k` qualities, each in 1..10. |
| CreateFastq.StatsPrefix | backend/scripts/create_fastq.py:148 | The quality slice `[:n]` is the table's prefix, clamped to the table's length. |
| CreateFastq.ReverseComplement | backend/scripts/create_fastq.py:156 | Position `i` of the result is the complement of position `len - 1 - i`. |
| CreateFastq.ReverseComplementAppend | backend/scripts/create_fastq.py:160-161 | The reverse complement of `x + y` is that of `y` followed by that of `x`. |
| CreateFastq.ReverseComplementInvolution | backend/scripts/create_fastq.py:156 | With an involutive complement table, taking the reverse complement twice gives back the bases. |
| CreateFastq.Records | backend/scripts/create_fastq.py:164-171 | Attaching and writing the records succeeds exactly when each quality list is as long as its sequence and lies in 0..93. An out-of-range R1 list raises Biopython's ValueError. |
| CreateFastq.ReadPairSucceeds | backend/scripts/create_fastq.py:142-171 | An iteration succeeds exactly when there are amplicons and the quality table covers what the read takes from it, with every quality taken in 0..93. For a short amplicon the base table must also be non-empty. |
| CreateFastq.LongReadsSucceed | backend/scripts/create_fastq.py:146-171 | For an amplicon of at least 251 bases the pair is written exactly when the quality table has 251 entries, all in 0..93. |
| CreateFastq.ShortReadsSucceed | backend/scripts/create_fastq.py:146-171 | For a shorter amplicon the pair is written exactly when the base table is non-empty and the quality table covers the amplicon's length, with those qualities in 0..93. |
| CreateFastq.PhredRangeAll | backend/scripts/create_fastq.py:153-162 | The range predicate holds exactly when every quality in the list lies in 0..93. |
| CreateFastq.PhredRangeAppend | backend/scripts/create_fastq.py:153-162 | A concatenated quality list lies in 0..93 exactly when both parts do. |
| CreateFastq.LongAmpliconReads | backend/scripts/create_fastq.py:146-157 | Long amplicons give 251-base mates: R1 is the first 251 bases and R2 the reverse complement of the last 251. |
| CreateFastq.ShortAmpliconReads | backend/scripts/create_fastq.py:149-162 | Short amplicons are padded to 251 bases: R1 is the amplicon then overrun, R2 the reverse complement of overrun then amplicon. Overrun qualities lie in 1..10. |
| CreateFastq.ReadPairShape | backend/scripts/create_fastq.py:141-168 | Every written pair has 251 bases and 251 qualities per mate. R1 starts with the upper-cased amplicon and R2 with the reverse complement of its end. Overrun qualities lie in 1..10, and the ids are the generator's names. |
| CreateFastq.Values | backend/scripts/create_fastq.py:142 | `list(d.values())` lists the value of every key in insertion order. |
| CreateFastq.SimulateWrites | backend/scripts/create_fastq.py:141-171 | The loop writes the pair of every iteration before the first one that raises, and reports that iteration's error. Without an error it writes all `n` pairs. |
| CreateFastq.SimulateStops | backend/scripts/create_fastq.py:141-171 | Once an iteration has raised, nothing further happens. |
| CreateFastq.SimulateWithoutAmplicons | backend/scripts/create_fastq.py:142 | With no amplicons and a positive count the first choice raises and nothing is written. |
| CreateFastq.SimulateNext | backend/scripts/create_fastq.py:141-171 | One more iteration of a loop that has not raised appends its pair or records its error. |
| CreateFastq.ReadLoopStep | backend/scripts/create_fastq.py:141-171 | One iteration, in the terms the loop computes: no amplicons raise, otherwise the pair built from the chosen amplicon is written or its error recorded. |
| CreateFastq.WriteReads | backend/scripts/create_fastq.py:141-171 | The write loop and its read-name generator write exactly the simulated pairs and stop at the first error. |
| CreateFastq.WriteFastqFiles | backend/scripts/create_fastq.py:130-173 | An open failure is the error and nothing is written. Otherwise `write_fastq_files` writes the simulated pairs and returns `prefix + "/" + name` for R1 and R2, or the error that escaped. |
| CreateFastq.RunCreateFastq | backend/scripts/create_fastq.py:175-195 | The report is "success" exactly when both files are read, the amplicons are built, the output opens and no iteration raises. Then it has both paths and no error. Otherwise it is "fail_main" with null paths and the reader's or automaton's error where that raised. The pairs written are the simulated ones once the output is open, and none before. |
| Pcr.WritePcrFasta | backend/scripts/pcr.py:64-71 | An open failure is the error and nothing is written. Otherwise the file goes to `output_dir / name` and holds `">" + key + "\n" + seq + "\n"` for every entry, in dict order. |
| Pcr.FastaTextRoundTrip | backend/scripts/pcr.py:69 | The written FASTA text reads back as the same entries when no key or sequence holds a newline. |
| Pcr.PcrFileReadsBack | backend/scripts/pcr.py:64-71 | A written amplicon file reads back as exactly the dict's items. |
| Pcr.RunPcr | backend/scripts/pcr.py:73-91 | As written, every run reports "fail_main" with a null path. The error is the reader's when a file cannot be read, the automaton's when there are references and no primers, and otherwise the four-argument call's TypeError. |
| Pcr.RunPcrCorrected | backend/scripts/pcr.py:73-91 | With the three-argument call, the report is "success" exactly when both files are read, the amplicons are built and the file opens. Then it carries the path and the file holds every amplicon. Otherwise it is "fail_main" with an error and nothing written. |
| Server.CategoryOf | backend/server.js:226-233 | The map yields a FASTA category exactly for "genomic" and "primer". |
| Server.UploadKey | backend/server.js:214 | The object key `<userId>/<category>/<name>` is never empty. |
| Server.FilterS3 | backend/server.js:366 | A path is kept exactly when it is one of the given paths and an S3 locator. |
| Server.FilterLocal | backend/server.js:367 | A path is kept exactly when it is one of the given paths and not an S3 locator. |
| Server.FilterAppend | backend/server.js:366-367 | Both filters keep the paths' order: filtering a concatenation concatenates the filtered parts. |
| Server.FilterPartition | backend/server.js:366-367 | Every linked path goes to exactly one of the S3 batch and the local loop, as many times as it occurs. |
| Server.FastqRowsAddedKeeps | backend/server.js:741-758 | Adding the FASTQ rows leaves every existing file row as it was. |
| Server.FastaUpsertAt | backend/server.js:489-504 | When the file already has an analysis, the upsert replaces exactly that row. |
| Server.FastaUpsertStoresOne | backend/server.js:489-504 | After the upsert the file has exactly one analysis, the new one. Other files' analyses are untouched, and at most one new id appears. |
| Server.InsertFileKeepsTablesValid | backend/server.js:241-248 | A new file row keeps the table invariant unless it duplicates one of the user's FASTA names. |
| Server.RemoveRowsKeepsTablesValid | backend/server.js:358-362 | Removing file and analysis rows keeps the table invariant. |
| Server.InsertFastqAnalysisKeepsTablesValid | backend/server.js:760-774 | An analysis with a new key whose names copy its files keeps the table invariant. |
| Server.UpsertFastaKeepsTablesValid | backend/server.js:489-504 | An upsert for the owner of the file keeps the table invariant, in either branch. |
| Server.FastaFileCountInsert | backend/server.js:204-210 | A new FASTA row raises the user's FASTA count by exactly one. |
| Server.JoinedPathIsNotS3 | backend/server.js:366 | `bucket + "/" + rest` is no S3 URI when the bucket has no '/' and `rest` does not start with '/'. |
| Server.Database.InsertFile | backend/server.js:241-248 | The row goes under the next id, which was unused, the counter advances, and nothing else changes. |
| Server.Database.Upload | backend/server.js:181-259 | Rejected with 400 and no put when the category is not genomic or primer, no file is given, the normalised name has a disallowed extension, the user already has that name, or the user has more than 5 FASTA files. Otherwise the put goes to `<bucket>/<userId>/<category>/<name>`. A 412 becomes 409 and any other failure 500. Exactly one row is added with the normalised name, an `s3://` path and the user as owner, only on success, and then the FASTA count is at most 6. |
| Server.Database.DeleteFile | backend/server.js:320-338 | An unknown id gives 404 and changes nothing, with no ownership check. The object is deleted first. An S3 404 counts as deleted and removes the row. Any other S3 error, or a failing row delete, gives 500 and keeps the row. |
| Server.Database.DeleteFastqAnalysis | backend/server.js:340-388 | A missing or foreign analysis gives 404 and changes nothing. Otherwise exactly that analysis and its non-null R1/R2 rows are removed. S3 locators go to the batched delete, whose failures are ignored, and other paths go to the local loop. The reply is success. |
| Server.Database.InsertFastqFiles | backend/server.js:741-758 | Each FASTQ row is inserted unless its insert fails, with the basename as its name, the next ids in R1, R2 order. |
| Server.Database.SaveFastqRun | backend/server.js:741-785 | The two FASTQ rows are added first. The analysis row, referencing them and carrying the raw sample name, is added only when both inserts and its own succeed. Any failure gives 500 and leaves the inserted file rows in place. |
| Server.Database.InsertFastqAnalysis | backend/server.js:760-774 | The analysis goes under the next id, the counter advances, and nothing else changes. |
| Server.Database.CreateFastqAnalysis | backend/server.js:642-794 | An existing 6-tuple key, with the raw sample name, returns the stored result and files before any ownership check or collaborator call, and changes nothing. Unowned inputs give 404. The collaborator gets both paths, the prefix and `safeName`. An exec error, unparseable stdout or a non-success status give 500 and write no rows. A "success" report that lacks `r1_path` or `r2_path` gets no reply and writes no rows, because `path.basename(undefined)` throws at server.js:737-738, outside the `try` that starts at :740. Success saves the rows as in SaveFastqRun. |
| Server.Database.AnalyzeFasta | backend/server.js:457-517 | A file not owned by the user gives 404. Exec and parse errors give 500 and write nothing. Parsed output upserts `Found <n> sequences.` as the file's one analysis and replies with the count. A failing upsert sends nothing. |
| Server.Database.UpsertFastaAnalysis | backend/server.js:489-504 | Upsert keyed by user and file: the file's analysis row is replaced, or a new row is added under the next id. |
| Server.Database.ListFilesPartition | backend/server.js:155-179 | The PRIMER, GENOMIC and PCR lists are disjoint and together hold exactly the user's non-FASTQ files with their names. |
| Server.Database.FastaFiles | backend/server.js:390-426 | Lists exactly the user's PRIMER and GENOMIC files. |
| Server.Database.FastaFilesShowStoredResult | backend/server.js:417 | A listed file shows exactly the text its analysis stored. |
| Server.Database.FastqFilesHydration | backend/server.js:443-452 | A hydrated name is the stored name exactly while the file exists, and the stored name plus " (Deleted)" once it is gone. |
| Server.UploadedPathDeletesItsObject | backend/server.js:239 | Deleting an uploaded row's path sends the delete to exactly the object of its put. It throws only for a non-404 error. |
| Server.FastqOutputPaths | backend/server.js:695 | The FASTQ paths under the server's prefix are never S3 URIs, so the cascade sends them to the local loop, and their basename is the generated file name. |
| Server.FastqRowDeleteThrows | backend/server.js:289-298 | Deleting a generated FASTQ row's path throws before any request, so `/delete/:fileId` answers 500 and keeps the row. |
| Server.FastqNameIsNeverNormalized | backend/server.js:737-738 | A generated FASTQ name (it contains 'S' and 'L') never equals a normalised upload name. |

## Left out

- Transport and credentials are not modelled: Express wiring, CORS, the rate limiter, multer limits, JWT
  authentication, `/register` and `/login`. The authenticated user id is a parameter.
- `/download/:fileId` and `/analyses` are not modelled: they only read rows and presign URLs.
- `/run-pcr` is not modelled. It cannot run as written: its handler names its response `rew`, it uses
  undefined variables, and it passes flags pcr.py does not accept.
- The AWS SDK and Prisma are represented only by reply values and maps. Prisma's referential actions on
  delete are not modelled: references to removed files are left as plain ids, which the listings treat
  as deleted.
- `parseS3Uri` and `isS3Uri` are neither defined in backend/server.js nor imported by its `require`
  lines (1-35). As written, every call to them throws a ReferenceError. `BlobStore.ParseS3Uri` and
  `BlobStore.IsS3Uri` instead state an assumed behaviour, and the members below hold only under that
  assumption.
- Server.Database.DeleteFile: its success path holds only under the assumed helpers. As written,
  `parseS3Uri` at server.js:290, reached from :329, throws for every existing id, so the route answers 500 "Internal server
  error" and keeps the row.
- Server.Database.DeleteFastqAnalysis: its `Success(true)` holds only under the assumed helpers. As
  written, `paths.filter(isS3Uri)` at server.js:366 throws after the row deletes at :358-363, so the
  route answers 500 "Failed to delete analysis" with the rows gone and no object deleted.
- Route parameters are taken as already-parsed integers. `parseInt`/`Number` giving NaN is not modelled.
- Server.Database.AnalyzeFasta: does not model a request body without `fileId` (server.js:458). Then the
  id is undefined, Prisma drops `id: undefined` from the `where` at :462-464, and the user's first file
  of any category is analysed. The model takes the id as an integer.
- Server.Database.CreateFastqAnalysis: does not model missing body fields (server.js:643), such as an
  absent `primerFileId` or `referenceFileId`, which Prisma would likewise drop from its lookups. The
  model takes them as integers.
- Concurrency is not modelled: `Promise.all` and the `execFile` callback are taken as sequential steps.
- The local `fs.unlinkSync` loop of the analysis cascade is not modelled. The model returns the paths
  handed to it.
- `Server.Database.DeleteFastqAnalysis`: does not model database exceptions in the cascade; it assumes the
  two deletes succeed.
- A missing `sampleName` (`sampleName?.replace` giving undefined) is not modelled. The sample name is a
  string.
- Exception message texts of the Python runtime are modelled only where the code depends on them. Elsewhere
  an error is an opaque string.
- JSON parsing is not modelled: the collaborator's stdout arrives parsed into a report, or marked as not
  JSON.
- Floating point is not modelled: `round()` of the cycle-quality statistics, so the table is given
  already rounded. The weights of `random.choices` are not modelled either: a weighted draw is an index
  into the base table.
- Randomness, Biopython's FASTA reader and complement table, and the Aho-Corasick automaton are
  parameters. The unused automaton B of `find_primer_locations` is not modelled.
- Amplicons.FindPrimerLocations: takes the automaton as built whenever the primer dict is non-empty;
  whether pyahocorasick adds an empty primer sequence as a word is not modelled.
- gzip, `smart_open` and the FASTQ text format of `SeqIO.write` are not modelled. The records written are
  the output. Of their failures only the range check of the qualities and a failing open are modelled;
  a write or close that fails later is not.
- CreateFastq.Records: when the R1 record of an iteration is written and the R2 record then raises, the
  model counts the pair as not written, while the R1 file already holds that record.
- Pcr.PcrPath: is `output_dir + "/" + name`. The normalisation `pathlib` applies is not modelled: a
  trailing '/' on the directory is dropped, a directory "." or "" vanishes, an absolute name replaces
  the directory, and an empty name gives the directory itself.
- `path.basename` at backend/server.js:737-738 is the platform's. The model uses the POSIX one. The
  interpreter path `venv/Scripts/python.exe` points to Windows, where backslashes and drive prefixes
  also separate path parts.
- The `__main__` argument parsing of both scripts, `load_cycle_stats` and
  `load_overrun_base_probabilities`, and `backend/scripts/process_fasta.py` are not modelled.
  process_fasta.py's report is an input.
- Non-ASCII text is not modelled. `toLowerCase` and `upper()` are modelled on ASCII letters only. The
  regexes of server.js:55-56 see UTF-16 code units, and the model sees characters: a character above
  U+FFFF becomes "__" in JavaScript but "_" in `Filenames.NormalizeFilename`.
- The frontend is not part of this model.

## Findings

| source | as written | input that shows it | evidently intended | confidence | as-written member | corrected member |
|---|---|---|---|---|---|---|
| backend/scripts/pcr.py:80 | `write_pcr_fasta(amplicons_dict, pcr_analysis_name, output_dir, cycle_count)` passes four arguments to a function declared with three parameters (pcr.py:64), so the TypeError it raises is caught and every run reports "fail_main" with a null path | primer and reference files that both read successfully, with at least one primer record | call `write_pcr_fasta` with its three parameters, so the run writes the amplicon FASTA and reports "success" with its path | not executed | Pcr.RunPcr | Pcr.RunPcrCorrected |
