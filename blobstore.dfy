/**
 * The object-store side of the backend: S3 locators, `deleteFromS3` (a single delete whose
 * "not found" answer is ignored) and `deleteManyFromS3` (group keys by bucket and send them in
 * DeleteObjects requests of at most 1000 keys). The store's answers are inputs of the model.
 */
module BlobStore {
  import opened Common

  datatype Location = Location(bucket: string, key: string)

  /** What one S3 request answered: success, or an error carrying `$metadata.httpStatusCode` when it has one. */
  datatype S3Reply = S3Ok | S3Error(httpStatus: Option<int>)

  /** An assumed `isS3Uri`, which backend/server.js also calls without defining: the "s3://" prefix. */
  predicate IsS3Uri(uri: string) {
    StartsWith(uri, "s3://")
  }

  function IndexOfSlash(s: string): (r: Option<nat>)
    ensures r.Some? ==> r.value < |s| && s[r.value] == '/' && '/' !in s[..r.value]
    ensures r.None? ==> '/' !in s
  {
    if s == [] then None
    else if s[0] == '/' then Some(0)
    else match IndexOfSlash(s[1..])
      case None => None
      case Some(i) => assert s[1..][..i] == s[1..i + 1]; Some(i + 1)
  }

  /**
   * An assumed `parseS3Uri`: backend/server.js calls it but neither defines nor imports it, so as
   * written every call throws. Assumed here: the bucket is the text between "s3://" and the next '/',
   * the key is everything after that '/', and a locator that is not an S3 URI has no parse, which
   * its callers treat as a throw.
   */
  function ParseS3Uri(uri: string): (r: Option<Location>)
    ensures r.Some? <==> IsS3Uri(uri)
    ensures r.Some? ==> '/' !in r.value.bucket
  {
    if !IsS3Uri(uri) then None
    else
      var rest := uri[5..];
      match IndexOfSlash(rest)
      case None => Some(Location(rest, ""))
      case Some(i) => Some(Location(rest[..i], rest[i + 1..]))
  }

  /** The locator `s3://<bucket>/<key>` the upload route stores. */
  function S3Uri(loc: Location): (u: string)
    ensures IsS3Uri(u)
  {
    "s3://" + loc.bucket + "/" + loc.key
  }

  /** Parsing a locator the backend built gives back its bucket and key. */
  lemma ParseS3UriRoundTrip(loc: Location)
    requires '/' !in loc.bucket
    ensures ParseS3Uri(S3Uri(loc)) == Some(loc)
  {
    var u := S3Uri(loc);
    var rest := u[5..];
    assert rest == loc.bucket + "/" + loc.key;
    IndexOfSlashOfJoin(loc.bucket, loc.key);
    assert rest[..|loc.bucket|] == loc.bucket;
    assert rest[|loc.bucket| + 1..] == loc.key;
  }

  /** And conversely: a locator with a '/' after its bucket is rebuilt exactly from its parse. */
  lemma S3UriOfParse(uri: string)
    requires IsS3Uri(uri) && '/' in uri[5..]
    ensures S3Uri(ParseS3Uri(uri).value) == uri
  {
    var rest := uri[5..];
    var i := IndexOfSlash(rest).value;
    assert rest == rest[..i] + "/" + rest[i + 1..];
    assert uri == uri[..5] + rest;
    JoinParts("s3://", rest[..i], rest[i + 1..], rest, uri);
  }

  lemma JoinParts(scheme: string, bucket: string, key: string, rest: string, uri: string)
    requires rest == bucket + "/" + key && uri == scheme + rest
    ensures scheme + bucket + "/" + key == uri
  {
  }

  lemma {:induction false} IndexOfSlashOfJoin(a: string, b: string)
    requires '/' !in a
    ensures IndexOfSlash(a + "/" + b) == Some(|a|)
  {
    if a != [] {
      assert (a + "/" + b)[1..] == a[1..] + "/" + b;
      IndexOfSlashOfJoin(a[1..], b);
    }
  }

  // ---------------------------------------------------------------------------
  // deleteFromS3

  /** The effect of one `deleteFromS3` call: the DeleteObject request it sent, and whether it threw. */
  datatype DeleteOutcome = DeleteOutcome(sent: Option<Location>, threw: bool)

  /**
   * `deleteFromS3(uri)` given the store's `reply` to the request it sends: a locator with an
   * empty key is skipped, a 404 answer is ignored, every other error is rethrown.
   */
  function DeleteFromS3(uri: string, reply: S3Reply): (r: DeleteOutcome)
    ensures r.sent.Some? <==> ParseS3Uri(uri).Some? && ParseS3Uri(uri).value.key != ""
    ensures r.sent.Some? ==> ParseS3Uri(uri) == Some(r.sent.value)
    ensures r.threw <==> ParseS3Uri(uri).None? || (r.sent.Some? && reply.S3Error? && reply.httpStatus != Some(404))
  {
    match ParseS3Uri(uri)
    case None => DeleteOutcome(None, true)
    case Some(loc) =>
      if loc.key == "" then DeleteOutcome(None, false)
      else DeleteOutcome(Some(loc), reply.S3Error? && reply.httpStatus != Some(404))
  }

  // ---------------------------------------------------------------------------
  // deleteManyFromS3

  /** DeleteObjects accepts at most this many keys per request. */
  const MaxKeysPerRequest: nat := 1000

  datatype Group = Group(bucket: string, keys: seq<string>)

  /** One DeleteObjects request. */
  datatype Batch = Batch(bucket: string, keys: seq<string>)

  /** `.filter(Boolean).filter(isS3Uri).map(parseS3Uri)`: missing and empty locators and non-S3 ones are dropped. */
  function ParsedLocations(uris: seq<Option<string>>): (r: seq<Location>)
    ensures forall i :: 0 <= i < |r| ==> '/' !in r[i].bucket
  {
    if uris == [] then []
    else
      var rest := ParsedLocations(uris[1..]);
      match uris[0]
      case None => rest
      case Some(u) => if u != "" && IsS3Uri(u) then [ParseS3Uri(u).value] + rest else rest
  }

  /** One step of the reducer: append the key to its bucket's list, creating the list on first sight. */
  function AddKey(groups: seq<Group>, loc: Location): (r: seq<Group>)
  {
    if groups == [] then [Group(loc.bucket, [loc.key])]
    else if groups[0].bucket == loc.bucket then [Group(loc.bucket, groups[0].keys + [loc.key])] + groups[1..]
    else [groups[0]] + AddKey(groups[1..], loc)
  }

  /**
   * The properties every object literal inherits from `Object.prototype`. For such a bucket name
   * `acc[bucket] ||= []` keeps the inherited value, which has no `push`, so the reducer throws a
   * TypeError.
   */
  const InheritedProperties: set<string> := {
    "constructor", "hasOwnProperty", "isPrototypeOf", "propertyIsEnumerable", "toLocaleString",
    "toString", "valueOf", "__proto__", "__defineGetter__", "__defineSetter__", "__lookupGetter__",
    "__lookupSetter__"}

  /** The reducer throws: some location with a key names an inherited property as its bucket. */
  predicate ReducerThrows(locs: seq<Location>) {
    exists i :: 0 <= i < |locs| && locs[i].key != "" && locs[i].bucket in InheritedProperties
  }

  /** The reducer's accumulator after the given locations: a location with an empty key is skipped. */
  function Grouped(locs: seq<Location>): seq<Group>
  {
    if locs == [] then []
    else
      var last := locs[|locs| - 1];
      var acc := Grouped(locs[..|locs| - 1]);
      if last.key == "" then acc else AddKey(acc, last)
  }

  /** Reference definition: the non-empty keys of bucket `b`, in input order. */
  function KeysOfBucket(locs: seq<Location>, b: string): seq<string>
  {
    if locs == [] then []
    else
      var last := locs[|locs| - 1];
      KeysOfBucket(locs[..|locs| - 1], b) + if last.bucket == b && last.key != "" then [last.key] else []
  }

  /** The key list the accumulator holds for bucket `b` ([] when it has none). */
  function GroupKeys(groups: seq<Group>, b: string): seq<string>
  {
    if groups == [] then []
    else if groups[0].bucket == b then groups[0].keys
    else GroupKeys(groups[1..], b)
  }

  predicate DistinctBuckets(groups: seq<Group>) {
    forall i, j :: 0 <= i < j < |groups| ==> groups[i].bucket != groups[j].bucket
  }

  /** The requests sent for one bucket: `objects.slice(i, i + 1000)` for i = start, start + 1000, ... */
  function ChunkBatches(bucket: string, keys: seq<string>, start: nat): seq<Batch>
    decreases |keys| - start
  {
    if start >= |keys| then []
    else [Batch(bucket, keys[start..Min(start + MaxKeysPerRequest, |keys|)])] + ChunkBatches(bucket, keys, start + MaxKeysPerRequest)
  }

  /** All requests, bucket after bucket in the order of `groups`. */
  function Plan(groups: seq<Group>): seq<Batch>
  {
    if groups == [] then [] else ChunkBatches(groups[0].bucket, groups[0].keys, 0) + Plan(groups[1..])
  }

  /**
   * A property name JavaScript treats as an array index: the canonical decimal text (no leading
   * zero) of a number below 2^32 - 1.
   */
  predicate IsArrayIndex(name: string) {
    name != [] && (forall i :: 0 <= i < |name| ==> IsDigit(name[i])) &&
    (name[0] == '0' ==> |name| == 1) && DecimalValue(name) < 0xFFFF_FFFF
  }

  /** The number an array-index name stands for (0 for the other names, which it does not order). */
  function IndexOf(name: string): nat
  {
    if IsArrayIndex(name) then DecimalValue(name) else 0
  }

  /** Groups in the order `Object.entries` lists them: array-index names first, by ascending index. */
  ghost predicate EntriesOrdered(groups: seq<Group>) {
    forall i, j :: 0 <= i < j < |groups| && IsArrayIndex(groups[j].bucket) ==>
      IsArrayIndex(groups[i].bucket) && IndexOf(groups[i].bucket) <= IndexOf(groups[j].bucket)
  }

  /** Inserting an array-index group into a run of them sorted by ascending index. */
  function InsertByIndex(g: Group, sorted: seq<Group>): (r: seq<Group>)
    ensures |r| == |sorted| + 1
    ensures forall i :: 0 <= i < |r| ==> r[i] == g || r[i] in sorted
  {
    if sorted == [] || IndexOf(g.bucket) < IndexOf(sorted[0].bucket) then [g] + sorted
    else [sorted[0]] + InsertByIndex(g, sorted[1..])
  }

  /** The array-index groups, sorted by ascending index. */
  function IndexGroups(groups: seq<Group>): (r: seq<Group>)
    ensures forall i :: 0 <= i < |r| ==> IsArrayIndex(r[i].bucket) && r[i] in groups
  {
    if groups == [] then []
    else
      var rest := IndexGroups(groups[1..]);
      if IsArrayIndex(groups[0].bucket) then InsertByIndex(groups[0], rest) else rest
  }

  /** The other groups, in the accumulator's (creation) order. */
  function NamedGroups(groups: seq<Group>): (r: seq<Group>)
    ensures forall i :: 0 <= i < |r| ==> !IsArrayIndex(r[i].bucket)
  {
    if groups == [] then []
    else (if IsArrayIndex(groups[0].bucket) then [] else [groups[0]]) + NamedGroups(groups[1..])
  }

  /** `Object.entries(items)` over the accumulator. */
  function Entries(groups: seq<Group>): seq<Group>
  {
    IndexGroups(groups) + NamedGroups(groups)
  }

  /**
   * The DeleteObjects requests `deleteManyFromS3(uris)` sends when none of them fails: none when
   * the reducer throws, otherwise bucket after bucket in `Object.entries` order.
   */
  function DeletePlan(uris: seq<Option<string>>): seq<Batch>
  {
    var locs := ParsedLocations(uris);
    if ReducerThrows(locs) then [] else Plan(Entries(Grouped(locs)))
  }

  /** The keys of bucket `b`'s requests, concatenated in sending order. */
  function BatchKeys(batches: seq<Batch>, b: string): seq<string>
  {
    if batches == [] then [] else (if batches[0].bucket == b then batches[0].keys else []) + BatchKeys(batches[1..], b)
  }

  lemma {:induction false} GroupKeysAbsent(groups: seq<Group>, b: string)
    requires forall i :: 0 <= i < |groups| ==> groups[i].bucket != b
    ensures GroupKeys(groups, b) == []
  {
    if groups != [] {
      GroupKeysAbsent(groups[1..], b);
    }
  }

  lemma {:induction false} AddKeyBuckets(groups: seq<Group>, loc: Location)
    ensures |AddKey(groups, loc)| >= |groups|
    ensures forall i :: 0 <= i < |AddKey(groups, loc)| ==>
      AddKey(groups, loc)[i].bucket == loc.bucket || (i < |groups| && AddKey(groups, loc)[i].bucket == groups[i].bucket)
    ensures forall i :: 0 <= i < |groups| ==> AddKey(groups, loc)[i].bucket == groups[i].bucket
  {
    if groups != [] && groups[0].bucket != loc.bucket {
      AddKeyBuckets(groups[1..], loc);
    }
  }

  lemma {:induction false} AddKeyDistinct(groups: seq<Group>, loc: Location)
    requires DistinctBuckets(groups)
    ensures DistinctBuckets(AddKey(groups, loc))
  {
    var r := AddKey(groups, loc);
    if groups == [] {
    } else if groups[0].bucket == loc.bucket {
      forall i | 0 <= i < |r| ensures r[i].bucket == groups[i].bucket {
        if i > 0 {
          assert r[i] == groups[i];
        }
      }
    } else {
      var tail := AddKey(groups[1..], loc);
      assert DistinctBuckets(groups[1..]) by {
        forall i, j | 0 <= i < j < |groups[1..]| ensures groups[1..][i].bucket != groups[1..][j].bucket {
          assert groups[1..][i] == groups[i + 1] && groups[1..][j] == groups[j + 1];
        }
      }
      AddKeyDistinct(groups[1..], loc);
      AddKeyBuckets(groups[1..], loc);
      assert r == [groups[0]] + tail;
      forall i, j | 0 <= i < j < |r| ensures r[i].bucket != r[j].bucket {
        assert r[j] == tail[j - 1];
        if i == 0 {
          assert tail[j - 1].bucket == loc.bucket || tail[j - 1].bucket == groups[j].bucket;
        } else {
          assert r[i] == tail[i - 1];
        }
      }
    }
  }

  lemma {:induction false} AddKeyKeys(groups: seq<Group>, loc: Location, b: string)
    ensures GroupKeys(AddKey(groups, loc), b) == GroupKeys(groups, b) + if loc.bucket == b then [loc.key] else []
  {
    var r := AddKey(groups, loc);
    if groups == [] {
    } else if groups[0].bucket == loc.bucket {
      if b != loc.bucket {
        assert r[1..] == groups[1..];
      }
    } else {
      AddKeyKeys(groups[1..], loc, b);
      assert r[1..] == AddKey(groups[1..], loc);
    }
  }

  /** The accumulator holds, for every bucket, exactly that bucket's non-empty keys in input order. */
  lemma {:induction false} GroupedKeys(locs: seq<Location>, b: string)
    ensures DistinctBuckets(Grouped(locs))
    ensures GroupKeys(Grouped(locs), b) == KeysOfBucket(locs, b)
  {
    if locs != [] {
      var last := locs[|locs| - 1];
      GroupedKeys(locs[..|locs| - 1], b);
      if last.key != "" {
        AddKeyDistinct(Grouped(locs[..|locs| - 1]), last);
        AddKeyKeys(Grouped(locs[..|locs| - 1]), last, b);
      }
    }
  }

  lemma {:induction false} BatchKeysAppend(x: seq<Batch>, y: seq<Batch>, b: string)
    ensures BatchKeys(x + y, b) == BatchKeys(x, b) + BatchKeys(y, b)
  {
    if x != [] {
      assert (x + y)[0] == x[0];
      assert (x + y)[1..] == x[1..] + y;
      BatchKeysAppend(x[1..], y, b);
    } else {
      assert x + y == y;
    }
  }

  lemma {:induction false} ChunkBatchesKeys(bucket: string, keys: seq<string>, start: nat, b: string)
    requires start <= |keys|
    ensures BatchKeys(ChunkBatches(bucket, keys, start), b) == if bucket == b then keys[start..] else []
    decreases |keys| - start
  {
    if start < |keys| {
      var next := Min(start + MaxKeysPerRequest, |keys|);
      ChunkBatchesKeys(bucket, keys, next, b);
      if next < start + MaxKeysPerRequest {
        assert ChunkBatches(bucket, keys, start + MaxKeysPerRequest) == [];
      }
      assert keys[start..] == keys[start..next] + keys[next..];
    }
  }

  lemma {:induction false} ChunkBatchesShape(bucket: string, keys: seq<string>, start: nat)
    ensures forall k :: 0 <= k < |ChunkBatches(bucket, keys, start)| ==>
      ChunkBatches(bucket, keys, start)[k].bucket == bucket &&
      1 <= |ChunkBatches(bucket, keys, start)[k].keys| <= MaxKeysPerRequest &&
      forall key :: key in ChunkBatches(bucket, keys, start)[k].keys ==> key in keys
    decreases |keys| - start
  {
    if start < |keys| {
      ChunkBatchesShape(bucket, keys, start + MaxKeysPerRequest);
    }
  }

  lemma {:induction false} PlanShape(groups: seq<Group>)
    ensures forall k :: 0 <= k < |Plan(groups)| ==>
      1 <= |Plan(groups)[k].keys| <= MaxKeysPerRequest &&
      exists g :: 0 <= g < |groups| && Plan(groups)[k].bucket == groups[g].bucket &&
        forall key :: key in Plan(groups)[k].keys ==> key in groups[g].keys
  {
    if groups != [] {
      var first := ChunkBatches(groups[0].bucket, groups[0].keys, 0);
      ChunkBatchesShape(groups[0].bucket, groups[0].keys, 0);
      PlanShape(groups[1..]);
      var p := Plan(groups);
      assert p == first + Plan(groups[1..]);
      forall k | 0 <= k < |p|
        ensures 1 <= |p[k].keys| <= MaxKeysPerRequest &&
          exists g :: 0 <= g < |groups| && p[k].bucket == groups[g].bucket &&
            forall key :: key in p[k].keys ==> key in groups[g].keys
      {
        if k < |first| {
          assert p[k] == first[k];
        } else {
          assert p[k] == Plan(groups[1..])[k - |first|];
          var g :| 0 <= g < |groups[1..]| && p[k].bucket == groups[1..][g].bucket &&
            forall key :: key in p[k].keys ==> key in groups[1..][g].keys;
          assert groups[1..][g] == groups[g + 1];
        }
      }
    }
  }

  lemma {:induction false} PlanKeys(groups: seq<Group>, b: string)
    requires DistinctBuckets(groups)
    ensures BatchKeys(Plan(groups), b) == GroupKeys(groups, b)
  {
    if groups != [] {
      var first := ChunkBatches(groups[0].bucket, groups[0].keys, 0);
      BatchKeysAppend(first, Plan(groups[1..]), b);
      ChunkBatchesKeys(groups[0].bucket, groups[0].keys, 0, b);
      assert DistinctBuckets(groups[1..]);
      PlanKeys(groups[1..], b);
      assert groups[0].keys[0..] == groups[0].keys;
      if groups[0].bucket == b {
        GroupKeysAbsent(groups[1..], b);
      }
    }
  }

  lemma {:induction false} KeysOfBucketNonEmpty(locs: seq<Location>, b: string)
    ensures forall key :: key in KeysOfBucket(locs, b) ==> key != ""
  {
    if locs != [] {
      KeysOfBucketNonEmpty(locs[..|locs| - 1], b);
    }
  }

  /** The keys of every group with bucket `b`, concatenated in order. */
  function AllKeys(groups: seq<Group>, b: string): seq<string>
  {
    if groups == [] then [] else (if groups[0].bucket == b then groups[0].keys else []) + AllKeys(groups[1..], b)
  }

  lemma {:induction false} AllKeysAppend(x: seq<Group>, y: seq<Group>, b: string)
    ensures AllKeys(x + y, b) == AllKeys(x, b) + AllKeys(y, b)
  {
    if x != [] {
      assert (x + y)[0] == x[0];
      assert (x + y)[1..] == x[1..] + y;
      AllKeysAppend(x[1..], y, b);
    } else {
      assert x + y == y;
    }
  }

  lemma {:induction false} AllKeysAbsent(groups: seq<Group>, b: string)
    requires forall i :: 0 <= i < |groups| ==> groups[i].bucket != b
    ensures AllKeys(groups, b) == []
  {
    if groups != [] {
      AllKeysAbsent(groups[1..], b);
    }
  }

  lemma {:induction false} AllKeysOfDistinct(groups: seq<Group>, b: string)
    requires DistinctBuckets(groups)
    ensures AllKeys(groups, b) == GroupKeys(groups, b)
  {
    if groups != [] {
      var rest := groups[1..];
      assert DistinctBuckets(rest) by {
        forall i, j | 0 <= i < j < |rest| ensures rest[i].bucket != rest[j].bucket {
          assert rest[i] == groups[i + 1] && rest[j] == groups[j + 1];
        }
      }
      AllKeysOfDistinct(rest, b);
      if groups[0].bucket == b {
        forall i | 0 <= i < |rest| ensures rest[i].bucket != b {
          assert rest[i] == groups[i + 1];
        }
        AllKeysAbsent(rest, b);
      }
    }
  }

  lemma {:induction false} PlanAllKeys(groups: seq<Group>, b: string)
    ensures BatchKeys(Plan(groups), b) == AllKeys(groups, b)
  {
    if groups != [] {
      var first := ChunkBatches(groups[0].bucket, groups[0].keys, 0);
      BatchKeysAppend(first, Plan(groups[1..]), b);
      ChunkBatchesKeys(groups[0].bucket, groups[0].keys, 0, b);
      PlanAllKeys(groups[1..], b);
      assert groups[0].keys[0..] == groups[0].keys;
    }
  }

  lemma {:induction false} InsertByIndexKeys(g: Group, sorted: seq<Group>, b: string)
    ensures g.bucket != b ==> AllKeys(InsertByIndex(g, sorted), b) == AllKeys(sorted, b)
    ensures AllKeys(sorted, b) == [] ==> AllKeys(InsertByIndex(g, sorted), b) == if g.bucket == b then g.keys else []
  {
    var r := InsertByIndex(g, sorted);
    if sorted == [] || IndexOf(g.bucket) < IndexOf(sorted[0].bucket) {
      assert r[0] == g && r[1..] == sorted;
    } else {
      InsertByIndexKeys(g, sorted[1..], b);
      assert r[0] == sorted[0] && r[1..] == InsertByIndex(g, sorted[1..]);
    }
  }

  /** With distinct buckets, the sorted array-index groups hold exactly the keys of the array-index buckets. */
  lemma {:induction false} IndexGroupsKeys(groups: seq<Group>, b: string)
    requires DistinctBuckets(groups)
    ensures AllKeys(IndexGroups(groups), b) == if IsArrayIndex(b) then AllKeys(groups, b) else []
  {
    if groups != [] {
      var rest := groups[1..];
      assert DistinctBuckets(rest) by {
        forall i, j | 0 <= i < j < |rest| ensures rest[i].bucket != rest[j].bucket {
          assert rest[i] == groups[i + 1] && rest[j] == groups[j + 1];
        }
      }
      IndexGroupsKeys(rest, b);
      if IsArrayIndex(groups[0].bucket) {
        InsertByIndexKeys(groups[0], IndexGroups(rest), b);
        if groups[0].bucket == b {
          forall i | 0 <= i < |rest| ensures rest[i].bucket != b {
            assert rest[i] == groups[i + 1];
          }
          AllKeysAbsent(rest, b);
        }
      }
    }
  }

  lemma {:induction false} NamedGroupsKeys(groups: seq<Group>, b: string)
    ensures AllKeys(NamedGroups(groups), b) == if IsArrayIndex(b) then [] else AllKeys(groups, b)
  {
    if groups != [] {
      var head := if IsArrayIndex(groups[0].bucket) then [] else [groups[0]];
      NamedGroupsKeys(groups[1..], b);
      AllKeysAppend(head, NamedGroups(groups[1..]), b);
      if head != [] {
        assert head[1..] == [];
      }
    }
  }

  /** Listing the accumulator in `Object.entries` order loses and reorders no bucket's keys. */
  lemma EntriesKeys(groups: seq<Group>, b: string)
    requires DistinctBuckets(groups)
    ensures BatchKeys(Plan(Entries(groups)), b) == GroupKeys(groups, b)
  {
    PlanAllKeys(Entries(groups), b);
    AllKeysAppend(IndexGroups(groups), NamedGroups(groups), b);
    IndexGroupsKeys(groups, b);
    NamedGroupsKeys(groups, b);
    AllKeysOfDistinct(groups, b);
  }

  lemma {:induction false} InsertByIndexOrdered(g: Group, sorted: seq<Group>)
    requires IsArrayIndex(g.bucket)
    requires forall i :: 0 <= i < |sorted| ==> IsArrayIndex(sorted[i].bucket)
    requires EntriesOrdered(sorted)
    ensures EntriesOrdered(InsertByIndex(g, sorted))
  {
    if sorted == [] || IndexOf(g.bucket) < IndexOf(sorted[0].bucket) {
      InsertFirstOrdered(g, sorted);
    } else {
      assert EntriesOrdered(sorted[1..]) by {
        forall i, j | 0 <= i < j < |sorted[1..]| && IsArrayIndex(sorted[1..][j].bucket)
          ensures IsArrayIndex(sorted[1..][i].bucket) && IndexOf(sorted[1..][i].bucket) <= IndexOf(sorted[1..][j].bucket)
        {
          assert sorted[1..][i] == sorted[i + 1] && sorted[1..][j] == sorted[j + 1];
        }
      }
      InsertByIndexOrdered(g, sorted[1..]);
      InsertLaterOrdered(g, sorted);
    }
  }

  /** A group whose index is below the first one goes in front and keeps the order. */
  lemma InsertFirstOrdered(g: Group, sorted: seq<Group>)
    requires IsArrayIndex(g.bucket)
    requires forall i :: 0 <= i < |sorted| ==> IsArrayIndex(sorted[i].bucket)
    requires EntriesOrdered(sorted)
    requires sorted == [] || IndexOf(g.bucket) < IndexOf(sorted[0].bucket)
    ensures EntriesOrdered([g] + sorted)
  {
    var r := [g] + sorted;
    forall i, j | 0 <= i < j < |r| && IsArrayIndex(r[j].bucket)
      ensures IsArrayIndex(r[i].bucket) && IndexOf(r[i].bucket) <= IndexOf(r[j].bucket)
    {
      assert r[j] == sorted[j - 1];
      if i > 0 {
        assert r[i] == sorted[i - 1];
      } else if j > 1 {
        assert IndexOf(sorted[0].bucket) <= IndexOf(sorted[j - 1].bucket);
      }
    }
  }

  /** A group whose index is not below the first one goes after it and keeps the order. */
  lemma InsertLaterOrdered(g: Group, sorted: seq<Group>)
    requires sorted != [] && IndexOf(sorted[0].bucket) <= IndexOf(g.bucket)
    requires IsArrayIndex(sorted[0].bucket)
    requires EntriesOrdered(sorted)
    requires EntriesOrdered(InsertByIndex(g, sorted[1..]))
    ensures EntriesOrdered([sorted[0]] + InsertByIndex(g, sorted[1..]))
  {
    var rest := sorted[1..];
    var tail := InsertByIndex(g, rest);
    var r := [sorted[0]] + tail;
    forall i, j | 0 <= i < j < |r| && IsArrayIndex(r[j].bucket)
      ensures IsArrayIndex(r[i].bucket) && IndexOf(r[i].bucket) <= IndexOf(r[j].bucket)
    {
      var t := tail[j - 1];
      assert r[j] == t;
      if i > 0 {
        assert r[i] == tail[i - 1];
      } else if t != g {
        assert t in rest;
        var k :| 0 <= k < |rest| && rest[k] == t;
        assert sorted[k + 1] == t;
        assert IndexOf(sorted[0].bucket) <= IndexOf(sorted[k + 1].bucket);
      }
    }
  }

  lemma {:induction false} IndexGroupsOrdered(groups: seq<Group>)
    ensures EntriesOrdered(IndexGroups(groups))
  {
    if groups != [] {
      IndexGroupsOrdered(groups[1..]);
      if IsArrayIndex(groups[0].bucket) {
        InsertByIndexOrdered(groups[0], IndexGroups(groups[1..]));
      }
    }
  }

  /** `Object.entries` lists the array-index buckets first, by ascending index, then the others. */
  lemma EntriesAreOrdered(groups: seq<Group>)
    ensures EntriesOrdered(Entries(groups))
  {
    IndexGroupsOrdered(groups);
    var ig, ng := IndexGroups(groups), NamedGroups(groups);
    var e := Entries(groups);
    forall i, j | 0 <= i < j < |e| && IsArrayIndex(e[j].bucket)
      ensures IsArrayIndex(e[i].bucket) && IndexOf(e[i].bucket) <= IndexOf(e[j].bucket)
    {
      assert e[i] == ig[i] && e[j] == ig[j];
    }
  }

  /** Requests in `Object.entries` order: an array-index bucket's requests precede every other bucket's, by ascending index. */
  ghost predicate BatchesOrdered(batches: seq<Batch>) {
    forall i, j :: 0 <= i < j < |batches| && IsArrayIndex(batches[j].bucket) ==>
      IsArrayIndex(batches[i].bucket) && IndexOf(batches[i].bucket) <= IndexOf(batches[j].bucket)
  }

  lemma {:induction false} PlanOrdered(groups: seq<Group>)
    requires EntriesOrdered(groups)
    ensures BatchesOrdered(Plan(groups))
  {
    if groups != [] {
      var rest := groups[1..];
      assert EntriesOrdered(rest) by {
        forall i, j | 0 <= i < j < |rest| && IsArrayIndex(rest[j].bucket)
          ensures IsArrayIndex(rest[i].bucket) && IndexOf(rest[i].bucket) <= IndexOf(rest[j].bucket)
        {
          assert rest[i] == groups[i + 1] && rest[j] == groups[j + 1];
        }
      }
      PlanOrdered(rest);
      var first := ChunkBatches(groups[0].bucket, groups[0].keys, 0);
      var later := Plan(rest);
      ChunkBatchesShape(groups[0].bucket, groups[0].keys, 0);
      PlanShape(rest);
      var p := Plan(groups);
      assert p == first + later;
      forall i, j | 0 <= i < j < |p| && IsArrayIndex(p[j].bucket)
        ensures IsArrayIndex(p[i].bucket) && IndexOf(p[i].bucket) <= IndexOf(p[j].bucket)
      {
        if j < |first| {
          assert p[i] == first[i] && p[j] == first[j];
        } else if i < |first| {
          assert p[i] == first[i] && p[j] == later[j - |first|];
          var g :| 0 <= g < |rest| && later[j - |first|].bucket == rest[g].bucket &&
            forall key :: key in later[j - |first|].keys ==> key in rest[g].keys;
          assert rest[g] == groups[g + 1];
        } else {
          assert p[i] == later[i - |first|] && p[j] == later[j - |first|];
        }
      }
    }
  }

  /**
   * What `deleteManyFromS3(uris)` sends: nothing when the reducer throws; otherwise every request
   * carries between 1 and 1000 keys, for every bucket the concatenation of its requests' keys is
   * exactly that bucket's non-empty keys among the S3 locators, in input order, and the buckets
   * come in `Object.entries` order.
   */
  lemma DeletePlanProperties(uris: seq<Option<string>>)
    ensures ReducerThrows(ParsedLocations(uris)) ==> DeletePlan(uris) == []
    ensures forall k :: 0 <= k < |DeletePlan(uris)| ==> 1 <= |DeletePlan(uris)[k].keys| <= MaxKeysPerRequest
    ensures !ReducerThrows(ParsedLocations(uris)) ==>
      forall b :: BatchKeys(DeletePlan(uris), b) == KeysOfBucket(ParsedLocations(uris), b)
    ensures forall b, key :: key in BatchKeys(DeletePlan(uris), b) ==> key != ""
    ensures BatchesOrdered(DeletePlan(uris))
  {
    var locs := ParsedLocations(uris);
    if !ReducerThrows(locs) {
      var groups := Grouped(locs);
      PlanShape(Entries(groups));
      EntriesAreOrdered(groups);
      PlanOrdered(Entries(groups));
      forall b ensures BatchKeys(DeletePlan(uris), b) == KeysOfBucket(locs, b) {
        GroupedKeys(locs, b);
        EntriesKeys(groups, b);
      }
      forall b, key | key in BatchKeys(DeletePlan(uris), b) ensures key != "" {
        KeysOfBucketNonEmpty(locs, b);
      }
    }
  }

  /**
   * A bucket named like an array index is sent first although it came second: for
   * "s3://abc/k1" then "s3://123/k2", bucket "123" is sent before bucket "abc".
   */
  lemma IndexBucketSentFirst(named: string, index: string, k1: string, k2: string)
    requires IsArrayIndex(index) && !IsArrayIndex(named)
    requires '/' !in named && '/' !in index
    requires named !in InheritedProperties && index !in InheritedProperties
    requires k1 != "" && k2 != ""
    ensures DeletePlan([Some("s3://" + named + "/" + k1), Some("s3://" + index + "/" + k2)])
         == [Batch(index, [k2]), Batch(named, [k1])]
  {
    var u1, u2 := "s3://" + named + "/" + k1, "s3://" + index + "/" + k2;
    var l1, l2 := Location(named, k1), Location(index, k2);
    TwoUriLocations(u1, u2, l1, l2);
    TwoBucketGrouping(l1, l2);
    var gn, gi := Group(named, [k1]), Group(index, [k2]);
    TwoGroupEntries(gn, gi);
    TwoGroupPlan(gi, gn);
  }

  lemma TwoGroupEntries(gn: Group, gi: Group)
    requires IsArrayIndex(gi.bucket) && !IsArrayIndex(gn.bucket)
    ensures Entries([gn, gi]) == [gi, gn]
  {
    var groups := [gn, gi];
    assert groups[1..] == [gi] && groups[1..][1..] == [];
    assert IndexGroups([gi]) == InsertByIndex(gi, []);
    assert IndexGroups(groups) == IndexGroups([gi]);
    assert NamedGroups([gi]) == [] + NamedGroups([]);
    assert NamedGroups(groups) == [gn] + NamedGroups([gi]);
  }

  lemma TwoGroupPlan(g1: Group, g2: Group)
    requires 0 < |g1.keys| <= MaxKeysPerRequest && 0 < |g2.keys| <= MaxKeysPerRequest
    ensures Plan([g1, g2]) == [Batch(g1.bucket, g1.keys), Batch(g2.bucket, g2.keys)]
  {
    assert [g1, g2][1..] == [g2] && [g2][1..] == [];
    OneChunk(g1.bucket, g1.keys);
    OneChunk(g2.bucket, g2.keys);
    assert Plan([g2]) == [Batch(g2.bucket, g2.keys)] + Plan([]);
  }

  lemma OneChunk(bucket: string, keys: seq<string>)
    requires 0 < |keys| <= MaxKeysPerRequest
    ensures ChunkBatches(bucket, keys, 0) == [Batch(bucket, keys)]
  {
    assert keys[0..|keys|] == keys;
  }

  lemma TwoUriLocations(u1: string, u2: string, l1: Location, l2: Location)
    requires '/' !in l1.bucket && u1 == "s3://" + l1.bucket + "/" + l1.key
    requires '/' !in l2.bucket && u2 == "s3://" + l2.bucket + "/" + l2.key
    ensures ParsedLocations([Some(u1), Some(u2)]) == [l1, l2]
  {
    ParseS3UriRoundTrip(l1);
    ParseS3UriRoundTrip(l2);
    ParsedStep(u2, l2, []);
    assert [Some(u2)] + [] == [Some(u2)];
    ParsedStep(u1, l1, [Some(u2)]);
    assert [Some(u1)] + [Some(u2)] == [Some(u1), Some(u2)];
  }

  /** A URI that parses puts its location in front of the rest. */
  lemma ParsedStep(uri: string, loc: Location, rest: seq<Option<string>>)
    requires uri != "" && IsS3Uri(uri) && ParseS3Uri(uri) == Some(loc)
    ensures ParsedLocations([Some(uri)] + rest) == [loc] + ParsedLocations(rest)
  {
    assert ([Some(uri)] + rest)[1..] == rest;
  }

  lemma TwoBucketGrouping(l1: Location, l2: Location)
    requires l1.key != "" && l2.key != "" && l1.bucket != l2.bucket
    requires l1.bucket !in InheritedProperties && l2.bucket !in InheritedProperties
    ensures !ReducerThrows([l1, l2])
    ensures Grouped([l1, l2]) == [Group(l1.bucket, [l1.key]), Group(l2.bucket, [l2.key])]
  {
    var locs := [l1, l2];
    assert locs[..1] == [l1] && locs[..1][..0] == [];
    assert Grouped(locs[..1]) == [Group(l1.bucket, [l1.key])];
    assert AddKey([Group(l1.bucket, [l1.key])], l2) == [Group(l1.bucket, [l1.key])] + AddKey([], l2);
    assert Grouped(locs) == AddKey(Grouped(locs[..1]), l2);
  }

  /**
   * The reducer over all parsed locations: it throws at the first location with a key whose
   * bucket names an inherited property.
   */
  method GroupByBucket(locs: seq<Location>) returns (groups: seq<Group>, threw: bool)
    ensures threw <==> ReducerThrows(locs)
    ensures !threw ==> groups == Grouped(locs)
  {
    groups := [];
    var i := 0;
    while i < |locs|
      invariant 0 <= i <= |locs|
      invariant groups == Grouped(locs[..i])
      invariant !ReducerThrows(locs[..i])
    {
      assert locs[..i + 1][..i] == locs[..i];
      if locs[i].key != "" {
        if locs[i].bucket in InheritedProperties {
          return groups, true;
        }
        groups := AddKey(groups, locs[i]);
      }
      assert forall j :: 0 <= j < i + 1 ==> locs[..i + 1][j] == locs[j];
      i := i + 1;
    }
    assert locs[..i] == locs;
    threw := false;
  }

  /**
   * The inner loop for one bucket: send `objects` in slices of 1000. `before` requests were sent
   * earlier; request number `failAt` (if it falls in this bucket) is sent and rejects.
   */
  method SendBucket(bucket: string, objects: seq<string>, before: nat, failAt: Option<nat>)
    returns (sent: seq<Batch>, failed: bool)
    requires failAt.Some? ==> failAt.value >= before
    ensures failed <==> failAt.Some? && failAt.value < before + |ChunkBatches(bucket, objects, 0)|
    ensures !failed ==> sent == ChunkBatches(bucket, objects, 0)
    ensures failed ==> sent == ChunkBatches(bucket, objects, 0)[..failAt.value - before + 1]
  {
    ghost var chunks := ChunkBatches(bucket, objects, 0);
    sent := [];
    var i: nat := 0;
    while i < |objects|
      invariant sent + ChunkBatches(bucket, objects, i) == chunks
      invariant failAt.Some? ==> failAt.value >= before + |sent|
      decreases |objects| - i
    {
      var chunk := Batch(bucket, objects[i..Min(i + MaxKeysPerRequest, |objects|)]);
      assert sent + [chunk] + ChunkBatches(bucket, objects, i + MaxKeysPerRequest) == chunks;
      sent := sent + [chunk];
      if failAt == Some(before + |sent| - 1) {
        assert chunks[..|sent|] == sent;
        failed := true;
        return;
      }
      i := i + MaxKeysPerRequest;
    }
    failed := false;
  }

  /**
   * `deleteManyFromS3(uris)`. `failAt` is the number of the DeleteObjects request (counting from 0)
   * whose promise rejects, if any: that request is sent, it throws, and nothing after it is sent.
   * When the reducer throws, no request is sent.
   */
  method DeleteManyFromS3(uris: seq<Option<string>>, failAt: Option<nat>) returns (sent: seq<Batch>, completed: bool)
    ensures completed <==> !ReducerThrows(ParsedLocations(uris)) && (failAt.None? || failAt.value >= |DeletePlan(uris)|)
    ensures completed ==> sent == DeletePlan(uris)
    ensures !completed && ReducerThrows(ParsedLocations(uris)) ==> sent == []
    ensures !completed && !ReducerThrows(ParsedLocations(uris)) ==> failAt.Some? && sent == DeletePlan(uris)[..failAt.value + 1]
  {
    var accumulator, threw := GroupByBucket(ParsedLocations(uris));
    if threw {
      return [], false;
    }
    var groups := Entries(accumulator);
    ghost var plan := Plan(groups);
    sent := [];
    var g := 0;
    while g < |groups|
      invariant 0 <= g <= |groups|
      invariant sent + Plan(groups[g..]) == plan
      invariant failAt.Some? ==> failAt.value >= |sent|
    {
      ghost var chunks := ChunkBatches(groups[g].bucket, groups[g].keys, 0);
      ghost var rest := Plan(groups[g + 1..]);
      PlanStep(groups, g);
      assert sent + (chunks + rest) == plan;
      var more, failed := SendBucket(groups[g].bucket, groups[g].keys, |sent|, failAt);
      SendStep(sent, chunks, rest, plan, more, failAt, failed);
      sent := sent + more;
      if failed {
        completed := false;
        return;
      }
      g := g + 1;
    }
    assert groups[g..] == [];
    completed := true;
  }

  lemma PlanStep(groups: seq<Group>, g: nat)
    requires g < |groups|
    ensures Plan(groups[g..]) == ChunkBatches(groups[g].bucket, groups[g].keys, 0) + Plan(groups[g + 1..])
  {
    assert groups[g..][1..] == groups[g + 1..];
  }

  /**
   * One bucket of the outer loop, on plain sequences: `sent` was sent, `chunks` are this bucket's
   * requests and `rest` those of later buckets; `more` is what the inner loop sent.
   */
  lemma SendStep<T>(sent: seq<T>, chunks: seq<T>, rest: seq<T>, plan: seq<T>, more: seq<T>, failAt: Option<nat>, failed: bool)
    requires sent + (chunks + rest) == plan
    requires failAt.Some? ==> failAt.value >= |sent|
    requires failed <==> failAt.Some? && failAt.value < |sent| + |chunks|
    requires !failed ==> more == chunks
    requires failed ==> more == chunks[..failAt.value - |sent| + 1]
    ensures failed ==> failAt.Some? && failAt.value < |plan| && sent + more == plan[..failAt.value + 1]
    ensures !failed ==> (sent + more) + rest == plan && (failAt.Some? ==> failAt.value >= |sent + more|)
  {
    if failed {
      assert plan[..failAt.value + 1] == sent + chunks[..failAt.value - |sent| + 1];
    }
  }
}
