/**
 * The in-silico PCR step shared by create_fastq.py and pcr.py (their `parse_fasta`,
 * `find_primer_locations` and `generate_artificial_amplicons` are the same code): primer hits
 * on each reference are paired and the slice between them is stored in an insertion-ordered
 * dictionary under "<reference>_<forward primer>_<reverse primer>".
 *
 * The Aho-Corasick automaton is not modelled: `scan(primers, reference)` is the `iter` over a
 * reference of the automaton built from the primer dict, and what a correct automaton reports
 * is the predicate `GenuineHits`.
 */
module Amplicons {
  import opened Common

  /** A Python dict of strings: its keys in insertion order and the value of each key. */
  datatype Dict = Dict(keys: seq<string>, values: map<string, string>)

  const EmptyDict := Dict([], map[])

  predicate Distinct(ks: seq<string>) {
    forall i, j :: 0 <= i < j < |ks| ==> ks[i] != ks[j]
  }

  /** Every dict Python builds: each key listed once, and exactly the keys that have values. */
  ghost predicate WellFormed(d: Dict) {
    Distinct(d.keys) && forall k :: k in d.values <==> k in d.keys
  }

  /** `d.get(k)`. */
  function Lookup(d: Dict, k: string): Option<string>
  {
    if k in d.values then Some(d.values[k]) else None
  }

  /**
   * `d[k] = v`: an existing key keeps its position and gets the new value, a new key goes last;
   * no other key's value changes.
   */
  function DictSet(d: Dict, k: string, v: string): (r: Dict)
    ensures Lookup(r, k) == Some(v)
    ensures forall k' :: k' != k ==> Lookup(r, k') == Lookup(d, k')
    ensures r.keys == if k in d.keys then d.keys else d.keys + [k]
    ensures WellFormed(d) ==> WellFormed(r)
  {
    Dict(if k in d.keys then d.keys else d.keys + [k], d.values[k := v])
  }

  /** The dict `d` after assigning the pairs of `assigns` in order. */
  function Assign(d: Dict, assigns: seq<(string, string)>): (r: Dict)
    ensures WellFormed(d) ==> WellFormed(r)
  {
    if assigns == [] then d
    else
      var last := assigns[|assigns| - 1];
      DictSet(Assign(d, assigns[..|assigns| - 1]), last.0, last.1)
  }

  /** Reference definition: the value assigned to `k` by the last assignment that names it. */
  function LastValue(assigns: seq<(string, string)>, k: string): Option<string>
  {
    if assigns == [] then None
    else if assigns[|assigns| - 1].0 == k then Some(assigns[|assigns| - 1].1)
    else LastValue(assigns[..|assigns| - 1], k)
  }

  lemma AssignSnoc(d: Dict, assigns: seq<(string, string)>, a: (string, string))
    ensures Assign(d, assigns + [a]) == DictSet(Assign(d, assigns), a.0, a.1)
  {
    assert (assigns + [a])[..|assigns|] == assigns;
  }

  /** Assigning one more pair of a sequence of pairs. */
  lemma AssignPrefixStep(assigns: seq<(string, string)>, i: nat)
    requires i < |assigns|
    ensures Assign(EmptyDict, assigns[..i + 1]) == DictSet(Assign(EmptyDict, assigns[..i]), assigns[i].0, assigns[i].1)
  {
    var s := assigns[..i + 1];
    assert s[..|s| - 1] == assigns[..i] && s[|s| - 1] == assigns[i];
  }

  /** Assigning two runs of pairs one after the other is assigning their concatenation. */
  lemma {:induction false} AssignAppend(d: Dict, x: seq<(string, string)>, y: seq<(string, string)>)
    ensures Assign(d, x + y) == Assign(Assign(d, x), y)
  {
    if y == [] {
      assert x + y == x;
    } else {
      var init := y[..|y| - 1];
      AssignAppend(d, x, init);
      assert (x + y)[..|x + y| - 1] == x + init;
    }
  }

  /**
   * Last writer wins: after a sequence of assignments to `{}` the dict is well formed and every
   * key holds the value of the last assignment to it (and is absent when none names it).
   */
  lemma {:induction false} AssignLookup(assigns: seq<(string, string)>, k: string)
    ensures WellFormed(Assign(EmptyDict, assigns))
    ensures Lookup(Assign(EmptyDict, assigns), k) == LastValue(assigns, k)
  {
    if assigns != [] {
      AssignLookup(assigns[..|assigns| - 1], k);
    }
  }

  /** A key is present exactly when some assignment names it. */
  lemma {:induction false} LastValueSome(assigns: seq<(string, string)>, k: string)
    ensures LastValue(assigns, k).Some? <==> exists i :: 0 <= i < |assigns| && assigns[i].0 == k
    ensures LastValue(assigns, k).Some? ==>
      exists i :: 0 <= i < |assigns| && assigns[i] == (k, LastValue(assigns, k).value)
  {
    if assigns != [] {
      var n := |assigns| - 1;
      var init := assigns[..n];
      LastValueSome(init, k);
      if assigns[n].0 != k {
        if exists i :: 0 <= i < |assigns| && assigns[i].0 == k {
          var i :| 0 <= i < |assigns| && assigns[i].0 == k;
          assert init[i] == assigns[i];
        }
        if LastValue(init, k).Some? {
          var i :| 0 <= i < |init| && init[i] == (k, LastValue(init, k).value);
          assert assigns[i] == init[i];
        }
      }
    }
  }

  /**
   * `parse_fasta`: `records[record.id] = str(record.seq)` for every record the FASTA reader
   * yields, in file order (the reader itself is not modelled; its output is `records`).
   */
  method ParseFasta(records: seq<(string, string)>) returns (d: Dict)
    ensures d == Assign(EmptyDict, records)
  {
    d := EmptyDict;
    var i := 0;
    while i < |records|
      invariant 0 <= i <= |records|
      invariant d == Assign(EmptyDict, records[..i])
    {
      AssignPrefixStep(records, i);
      d := DictSet(d, records[i].0, records[i].1);
      i := i + 1;
    }
    assert records[..i] == records;
  }

  /** A record that appears later in the file replaces an earlier one with the same id; ids are distinct. */
  lemma ParseFastaLastWins(records: seq<(string, string)>, id: string)
    ensures WellFormed(Assign(EmptyDict, records))
    ensures Lookup(Assign(EmptyDict, records), id) == LastValue(records, id)
  {
    AssignLookup(records, id);
  }

  // ---------------------------------------------------------------------------
  // find_primer_locations

  /** One match from `A.iter(reference)`: the index of its last character and the payload `(primer name, primer)`. */
  datatype Hit = Hit(endIndex: int, name: string, primer: string)

  /** `word` occurs in `s` ending at index `endIndex`. */
  predicate OccursEndingAt(s: string, word: string, endIndex: int) {
    0 <= endIndex + 1 - |word| && endIndex < |s| && s[endIndex + 1 - |word|..endIndex + 1] == word
  }

  /**
   * What a correct automaton over the primer dict reports: each hit is a real occurrence of a
   * named primer (the automaton does not accept an empty word, so no hit is empty).
   */
  predicate GenuineHits(reference: string, primers: Dict, hits: seq<Hit>) {
    forall i :: 0 <= i < |hits| ==>
      hits[i].primer != [] && Lookup(primers, hits[i].name) == Some(hits[i].primer) && OccursEndingAt(reference, hits[i].primer, hits[i].endIndex)
  }

  /** Reference definition of `forward_results`: each hit with its start index. */
  function ForwardResults(hits: seq<Hit>): seq<(string, int)>
  {
    seq(|hits|, i requires 0 <= i < |hits| => (hits[i].name, hits[i].endIndex - |hits[i].primer| + 1))
  }

  /** `reverse_results`: the comprehension iterates automaton A again, so it lists the same hits by end index. */
  function ReverseResults(hits: seq<Hit>): seq<(string, int)>
  {
    seq(|hits|, i requires 0 <= i < |hits| => (hits[i].name, hits[i].endIndex))
  }

  /**
   * What `A.iter` raises when no primer was added: `make_automaton` then leaves the empty trie
   * unconverted (pyahocorasick's AttributeError).
   */
  const AutomatonNotBuiltError := "Not an Aho-Corasick automaton yet: call add_word to add some keys and call make_automaton to convert the trie to an automaton."

  /**
   * `find_primer_locations(reference, primers)`, with `scan(primers, reference)` standing for
   * `A.iter(reference)` over the automaton built from the primers; an empty primer dict builds
   * no automaton and the call raises.
   */
  method FindPrimerLocations(reference: string, primers: Dict, scan: (Dict, string) -> seq<Hit>)
    returns (result: Result<(seq<(string, int)>, seq<(string, int)>)>)
    ensures result.Err? <==> primers.keys == []
    ensures result.Err? ==> result.error == AutomatonNotBuiltError
    ensures result.Ok? ==> result.value == (ForwardResults(scan(primers, reference)), ReverseResults(scan(primers, reference)))
  {
    if primers.keys == [] {
      return Err(AutomatonNotBuiltError);
    }
    var hits := scan(primers, reference);
    var forward := [];
    var i := 0;
    while i < |hits|
      invariant 0 <= i <= |hits|
      invariant forward == ForwardResults(hits[..i])
    {
      var startIndex := hits[i].endIndex - |hits[i].primer| + 1;
      forward := forward + [(hits[i].name, startIndex)];
      i := i + 1;
    }
    assert hits[..i] == hits;
    result := Ok((forward, ReverseResults(hits)));
  }

  /**
   * For genuine hits, every forward result starts where its primer begins in the reference and
   * the matching reverse result is where that same primer ends: the reference between the two
   * (end inclusive) is the primer itself, and both indices lie inside the reference.
   */
  lemma PrimerLocationsSpanPrimer(reference: string, primers: Dict, hits: seq<Hit>, k: int)
    requires GenuineHits(reference, primers, hits)
    requires 0 <= k < |hits|
    ensures ForwardResults(hits)[k].0 == ReverseResults(hits)[k].0 == hits[k].name
    ensures 0 <= ForwardResults(hits)[k].1 && ReverseResults(hits)[k].1 < |reference|
    ensures reference[ForwardResults(hits)[k].1..ReverseResults(hits)[k].1 + 1] == hits[k].primer
    ensures Lookup(primers, ForwardResults(hits)[k].0) == Some(hits[k].primer)
  {
  }

  // ---------------------------------------------------------------------------
  // generate_artificial_amplicons

  /** Python's normalisation of a slice bound against a sequence of length `len`. */
  function PyIndex(n: int, len: nat): (r: nat)
    ensures r <= len
    ensures 0 <= n <= len ==> r == n
    ensures n < 0 && 0 <= n + len ==> r == n + len
    ensures n > len ==> r == len
    ensures n + len < 0 ==> r == 0
  {
    if n < 0 then (if n + len < 0 then 0 else n + len) else if n > len then len else n
  }

  /** `s[i:j]` with Python's semantics: negative bounds count from the end, bounds are clamped, empty when the end is not after the start. */
  function PySlice(s: string, i: int, j: int): (r: string)
    ensures |r| <= |s|
  {
    var a := PyIndex(i, |s|);
    var b := PyIndex(j, |s|);
    if a < b then s[a..b] else []
  }

  /** For in-range bounds the Python slice is the plain subsequence, empty when `j <= i`. */
  lemma PySliceInRange(s: string, i: int, j: int)
    requires 0 <= i <= |s| && 0 <= j <= |s|
    ensures PySlice(s, i, j) == if i < j then s[i..j] else []
  {
  }

  function AmpliconName(referenceName: string, forwardName: string, reverseName: string): string
  {
    referenceName + "_" + forwardName + "_" + reverseName
  }

  /** The assignments of the innermost loop for one forward result. */
  function Row(referenceName: string, reference: string, f: (string, int), reverse: seq<(string, int)>): seq<(string, string)>
  {
    seq(|reverse|, k requires 0 <= k < |reverse| =>
      (AmpliconName(referenceName, f.0, reverse[k].0), PySlice(reference, f.1, reverse[k].1)))
  }

  /** The assignments for one reference: one row per forward result, in order. */
  function Pairs(referenceName: string, reference: string, forward: seq<(string, int)>, reverse: seq<(string, int)>): seq<(string, string)>
  {
    if forward == [] then []
    else Pairs(referenceName, reference, forward[..|forward| - 1], reverse) + Row(referenceName, reference, forward[|forward| - 1], reverse)
  }

  /** `d.items()`, in insertion order. */
  function ItemsOf(d: Dict): (items: seq<(string, string)>)
    requires WellFormed(d)
    ensures |items| == |d.keys|
    ensures forall i :: 0 <= i < |items| ==> items[i].0 == d.keys[i] && Lookup(d, d.keys[i]) == Some(items[i].1)
  {
    seq(|d.keys|, i requires 0 <= i < |d.keys| => (d.keys[i], d.values[d.keys[i]]))
  }

  /** All assignments `generate_artificial_amplicons` performs, reference after reference. */
  function Assignments(references: seq<(string, string)>, primers: Dict, scan: (Dict, string) -> seq<Hit>): seq<(string, string)>
  {
    if references == [] then []
    else
      var last := references[|references| - 1];
      var hits := scan(primers, last.1);
      Assignments(references[..|references| - 1], primers, scan) + Pairs(last.0, last.1, ForwardResults(hits), ReverseResults(hits))
  }

  lemma RowPrefix(referenceName: string, reference: string, f: (string, int), reverse: seq<(string, int)>, k: int)
    requires 0 <= k < |reverse|
    ensures Row(referenceName, reference, f, reverse)[..k + 1] == Row(referenceName, reference, f, reverse)[..k] +
      [(AmpliconName(referenceName, f.0, reverse[k].0), PySlice(reference, f.1, reverse[k].1))]
  {
  }

  /** The innermost loop: one amplicon per reverse result for the forward result `f`. */
  method AddRow(amplicons: Dict, referenceName: string, reference: string, f: (string, int), reverse: seq<(string, int)>)
    returns (r: Dict)
    ensures r == Assign(amplicons, Row(referenceName, reference, f, reverse))
  {
    r := amplicons;
    ghost var row := Row(referenceName, reference, f, reverse);
    var k := 0;
    while k < |reverse|
      invariant 0 <= k <= |reverse|
      invariant r == Assign(amplicons, row[..k])
    {
      var ampliconSeq := PySlice(reference, f.1, reverse[k].1);
      var name := AmpliconName(referenceName, f.0, reverse[k].0);
      AssignSnoc(amplicons, row[..k], (name, ampliconSeq));
      RowPrefix(referenceName, reference, f, reverse, k);
      r := DictSet(r, name, ampliconSeq);
      k := k + 1;
    }
    assert row[..k] == row;
  }

  /** The middle loop: one row per forward result of a reference. */
  method AddPairs(amplicons: Dict, referenceName: string, reference: string,
                  forward: seq<(string, int)>, reverse: seq<(string, int)>)
    returns (r: Dict)
    ensures r == Assign(amplicons, Pairs(referenceName, reference, forward, reverse))
  {
    r := amplicons;
    var j := 0;
    while j < |forward|
      invariant 0 <= j <= |forward|
      invariant r == Assign(amplicons, Pairs(referenceName, reference, forward[..j], reverse))
    {
      assert forward[..j + 1][..j] == forward[..j];
      AssignAppend(amplicons, Pairs(referenceName, reference, forward[..j], reverse), Row(referenceName, reference, forward[j], reverse));
      r := AddRow(r, referenceName, reference, forward[j], reverse);
      j := j + 1;
    }
    assert forward[..j] == forward;
  }

  /**
   * What `generate_artificial_amplicons(references, primers)` returns: the dict of all its
   * assignments, or the automaton's error as soon as there is a reference to search and no
   * primer to search for.
   */
  function AmpliconsOf(references: Dict, primers: Dict, scan: (Dict, string) -> seq<Hit>): Result<Dict>
    requires WellFormed(references)
  {
    if references.keys != [] && primers.keys == [] then Err(AutomatonNotBuiltError)
    else Ok(Assign(EmptyDict, Assignments(ItemsOf(references), primers, scan)))
  }

  /** The amplicons both scripts build from the records of their primer and reference FASTA files. */
  function AmpliconsOfRecords(primerRecords: seq<(string, string)>, referenceRecords: seq<(string, string)>,
                              scan: (Dict, string) -> seq<Hit>): (r: Result<Dict>)
    ensures r.Ok? ==> WellFormed(r.value)
  {
    AmpliconsOf(Assign(EmptyDict, referenceRecords), Assign(EmptyDict, primerRecords), scan)
  }

  /**
   * Building the amplicons fails exactly when there is a reference record and no primer record,
   * and then with the automaton's error.
   */
  lemma AmpliconsOfRecordsFails(primerRecords: seq<(string, string)>, referenceRecords: seq<(string, string)>,
                                scan: (Dict, string) -> seq<Hit>)
    ensures AmpliconsOfRecords(primerRecords, referenceRecords, scan).Err? <==> referenceRecords != [] && primerRecords == []
    ensures AmpliconsOfRecords(primerRecords, referenceRecords, scan).Err? ==>
      AmpliconsOfRecords(primerRecords, referenceRecords, scan).error == AutomatonNotBuiltError
  {
    AssignKeysEmpty(primerRecords);
    AssignKeysEmpty(referenceRecords);
  }

  /** Assigning to `{}` leaves it empty only when there is nothing to assign. */
  lemma AssignKeysEmpty(assigns: seq<(string, string)>)
    ensures Assign(EmptyDict, assigns).keys == [] <==> assigns == []
  {
  }

  /** `generate_artificial_amplicons(references, primers)`; `scan` stands for the primers' automaton. */
  method GenerateArtificialAmplicons(references: Dict, primers: Dict, scan: (Dict, string) -> seq<Hit>)
    returns (result: Result<Dict>)
    requires WellFormed(references)
    ensures result == AmpliconsOf(references, primers, scan)
  {
    ghost var items := ItemsOf(references);
    var amplicons := EmptyDict;
    var i := 0;
    while i < |references.keys|
      invariant 0 <= i <= |references.keys|
      invariant amplicons == Assign(EmptyDict, Assignments(items[..i], primers, scan))
      invariant i > 0 ==> primers.keys != []
    {
      var referenceName := references.keys[i];
      var reference := references.values[referenceName];
      assert items[i] == (referenceName, reference);
      var locations := FindPrimerLocations(reference, primers, scan);
      if locations.Err? {
        return Err(locations.error);
      }
      var forward, reverse := locations.value.0, locations.value.1;
      AssignmentsStep(items, i, primers, scan);
      amplicons := AddPairs(amplicons, referenceName, reference, forward, reverse);
      i := i + 1;
    }
    assert items[..i] == items;
    result := Ok(amplicons);
  }

  /** One more reference adds its own pairs to the dict built from the earlier ones. */
  lemma AssignmentsStep(items: seq<(string, string)>, i: nat, primers: Dict, scan: (Dict, string) -> seq<Hit>)
    requires i < |items|
    ensures Assign(EmptyDict, Assignments(items[..i + 1], primers, scan))
         == Assign(Assign(EmptyDict, Assignments(items[..i], primers, scan)),
                   Pairs(items[i].0, items[i].1, ForwardResults(scan(primers, items[i].1)), ReverseResults(scan(primers, items[i].1))))
  {
    var hits := scan(primers, items[i].1);
    assert items[..i + 1][..i] == items[..i];
    AssignAppend(EmptyDict, Assignments(items[..i], primers, scan), Pairs(items[i].0, items[i].1, ForwardResults(hits), ReverseResults(hits)));
  }

  /** Every assignment for one reference pairs some forward result with some reverse result. */
  lemma {:induction false} PairsFromResults(referenceName: string, reference: string,
                                             forward: seq<(string, int)>, reverse: seq<(string, int)>, n: int)
    requires 0 <= n < |Pairs(referenceName, reference, forward, reverse)|
    ensures exists a, b :: 0 <= a < |forward| && 0 <= b < |reverse| &&
                (Pairs(referenceName, reference, forward, reverse)[n] ==
                  (AmpliconName(referenceName, forward[a].0, reverse[b].0), PySlice(reference, forward[a].1, reverse[b].1)))
  {
    var init := forward[..|forward| - 1];
    var p := Pairs(referenceName, reference, init, reverse);
    var f := forward[|forward| - 1];
    if n < |p| {
      PairsFromResults(referenceName, reference, init, reverse, n);
      var a, b :| 0 <= a < |init| && 0 <= b < |reverse| &&
        p[n] == (AmpliconName(referenceName, init[a].0, reverse[b].0), PySlice(reference, init[a].1, reverse[b].1));
      assert init[a] == forward[a];
    } else {
      var b := n - |p|;
      assert Pairs(referenceName, reference, forward, reverse)[n] == Row(referenceName, reference, f, reverse)[b];
    }
  }

  /** Every pair of a forward and a reverse result of one reference gives one assignment. */
  lemma {:induction false} PairsComplete(referenceName: string, reference: string,
                                          forward: seq<(string, int)>, reverse: seq<(string, int)>, a: int, b: int)
    requires 0 <= a < |forward| && 0 <= b < |reverse|
    ensures (AmpliconName(referenceName, forward[a].0, reverse[b].0), PySlice(reference, forward[a].1, reverse[b].1))
      in Pairs(referenceName, reference, forward, reverse)
  {
    var init := forward[..|forward| - 1];
    var e := (AmpliconName(referenceName, forward[a].0, reverse[b].0), PySlice(reference, forward[a].1, reverse[b].1));
    if a < |init| {
      PairsComplete(referenceName, reference, init, reverse, a, b);
      assert init[a] == forward[a];
    } else {
      assert Row(referenceName, reference, forward[a], reverse)[b] == e;
    }
  }

  /** `e` is an amplicon of this reference: named after two of its hits, the slice from the first one's start to the second one's end index. */
  predicate IsAmpliconOf(referenceName: string, reference: string, hits: seq<Hit>, e: (string, string)) {
    exists a, b :: 0 <= a < |hits| && 0 <= b < |hits| &&
      e.0 == AmpliconName(referenceName, hits[a].name, hits[b].name) &&
      e.1 == PySlice(reference, hits[a].endIndex - |hits[a].primer| + 1, hits[b].endIndex)
  }

  /**
   * What `generate_artificial_amplicons` returns: a dict with distinct keys in which every entry
   * is the Python slice from some hit's start to some hit's end index on one reference, named
   * after that reference and the two primers, and every such pair's name is a key.
   */
  lemma {:induction false} AmpliconsFromHits(references: seq<(string, string)>, primers: Dict, scan: (Dict, string) -> seq<Hit>, key: string)
    ensures WellFormed(Assign(EmptyDict, Assignments(references, primers, scan)))
    ensures Lookup(Assign(EmptyDict, Assignments(references, primers, scan)), key).Some? ==>
      FromSomeReference(references, primers, scan, (key, Lookup(Assign(EmptyDict, Assignments(references, primers, scan)), key).value))
  {
    var assigns := Assignments(references, primers, scan);
    AssignLookup(assigns, key);
    if Lookup(Assign(EmptyDict, assigns), key).Some? {
      LastValueSome(assigns, key);
      var n :| 0 <= n < |assigns| && assigns[n] == (key, LastValue(assigns, key).value);
      AssignmentFrom(references, primers, scan, n);
    }
  }

  /** Some reference of `references` has `e` as an amplicon of its hits. */
  predicate FromSomeReference(references: seq<(string, string)>, primers: Dict, scan: (Dict, string) -> seq<Hit>, e: (string, string)) {
    exists i :: 0 <= i < |references| && IsAmpliconOf(references[i].0, references[i].1, scan(primers, references[i].1), e)
  }

  lemma {:induction false} AssignmentFrom(references: seq<(string, string)>, primers: Dict, scan: (Dict, string) -> seq<Hit>, n: int)
    requires 0 <= n < |Assignments(references, primers, scan)|
    ensures FromSomeReference(references, primers, scan, Assignments(references, primers, scan)[n])
    decreases |references|, 1
  {
    var init := references[..|references| - 1];
    var last := references[|references| - 1];
    var prev := Assignments(init, primers, scan);
    var p := Pairs(last.0, last.1, ForwardResults(scan(primers, last.1)), ReverseResults(scan(primers, last.1)));
    assert Assignments(references, primers, scan) == prev + p;
    ConcatIndex(prev, p, Assignments(references, primers, scan), n);
    if n < |prev| {
      AssignmentFromEarlier(references, primers, scan, n);
    } else {
      AssignmentFromLast(references, primers, scan, n - |prev|);
    }
  }

  lemma {:induction false} AssignmentFromEarlier(references: seq<(string, string)>, primers: Dict, scan: (Dict, string) -> seq<Hit>, n: int)
    requires references != [] && 0 <= n < |Assignments(references[..|references| - 1], primers, scan)|
    ensures FromSomeReference(references, primers, scan, Assignments(references[..|references| - 1], primers, scan)[n])
    decreases |references|, 0
  {
    var init := references[..|references| - 1];
    var e := Assignments(init, primers, scan)[n];
    AssignmentFrom(init, primers, scan, n);
    var i :| 0 <= i < |init| && IsAmpliconOf(init[i].0, init[i].1, scan(primers, init[i].1), e);
    assert init[i] == references[i];
  }

  lemma AssignmentFromLast(references: seq<(string, string)>, primers: Dict, scan: (Dict, string) -> seq<Hit>, m: int)
    requires references != []
    requires var last := references[|references| - 1];
      0 <= m < |Pairs(last.0, last.1, ForwardResults(scan(primers, last.1)), ReverseResults(scan(primers, last.1)))|
    ensures var last := references[|references| - 1];
      FromSomeReference(references, primers, scan, Pairs(last.0, last.1, ForwardResults(scan(primers, last.1)), ReverseResults(scan(primers, last.1)))[m])
  {
    var last := references[|references| - 1];
    var hits := scan(primers, last.1);
    var fw, rv := ForwardResults(hits), ReverseResults(hits);
    PairsFromResults(last.0, last.1, fw, rv, m);
    var a, b :| 0 <= a < |fw| && 0 <= b < |rv| &&
      Pairs(last.0, last.1, fw, rv)[m] == (AmpliconName(last.0, fw[a].0, rv[b].0), PySlice(last.1, fw[a].1, rv[b].1));
    assert IsAmpliconOf(last.0, last.1, hits, Pairs(last.0, last.1, fw, rv)[m]);
  }

  /** Conversely, every pair of hits on a reference names a key of the result. */
  lemma {:induction false} AmpliconsComplete(references: seq<(string, string)>, primers: Dict, scan: (Dict, string) -> seq<Hit>, i: int, a: int, b: int)
    requires 0 <= i < |references|
    requires 0 <= a < |scan(primers, references[i].1)| && 0 <= b < |scan(primers, references[i].1)|
    ensures Lookup(Assign(EmptyDict, Assignments(references, primers, scan)),
      AmpliconName(references[i].0, scan(primers, references[i].1)[a].name, scan(primers, references[i].1)[b].name)).Some?
  {
    var hits := scan(primers, references[i].1);
    var key := AmpliconName(references[i].0, hits[a].name, hits[b].name);
    AssignmentIn(references, primers, scan, i, a, b);
    var assigns := Assignments(references, primers, scan);
    AssignLookup(assigns, key);
    LastValueSome(assigns, key);
  }

  /** Some assignment in `assigns` is for `key`. */
  predicate AssignsKey(assigns: seq<(string, string)>, key: string) {
    exists n :: 0 <= n < |assigns| && assigns[n].0 == key
  }

  lemma {:induction false} AssignmentIn(references: seq<(string, string)>, primers: Dict, scan: (Dict, string) -> seq<Hit>, i: int, a: int, b: int)
    requires 0 <= i < |references|
    requires 0 <= a < |scan(primers, references[i].1)| && 0 <= b < |scan(primers, references[i].1)|
    ensures AssignsKey(Assignments(references, primers, scan),
                       AmpliconName(references[i].0, scan(primers, references[i].1)[a].name, scan(primers, references[i].1)[b].name))
    decreases |references|, 1
  {
    if i < |references| - 1 {
      AssignmentInEarlier(references, primers, scan, i, a, b);
    } else {
      AssignmentInLast(references, primers, scan, i, a, b);
    }
  }

  lemma {:induction false} AssignmentInEarlier(references: seq<(string, string)>, primers: Dict, scan: (Dict, string) -> seq<Hit>, i: int, a: int, b: int)
    requires 0 <= i < |references| - 1
    requires 0 <= a < |scan(primers, references[i].1)| && 0 <= b < |scan(primers, references[i].1)|
    ensures AssignsKey(Assignments(references, primers, scan),
                       AmpliconName(references[i].0, scan(primers, references[i].1)[a].name, scan(primers, references[i].1)[b].name))
    decreases |references|, 0
  {
    var init := references[..|references| - 1];
    var prev := Assignments(init, primers, scan);
    var all := Assignments(references, primers, scan);
    var last := references[|references| - 1];
    var p := Pairs(last.0, last.1, ForwardResults(scan(primers, last.1)), ReverseResults(scan(primers, last.1)));
    assert all == prev + p;
    var hits := scan(primers, references[i].1);
    var key := AmpliconName(references[i].0, hits[a].name, hits[b].name);
    assert init[i] == references[i];
    AssignmentIn(init, primers, scan, i, a, b);
    var n :| 0 <= n < |prev| && prev[n].0 == key;
    ConcatIndex(prev, p, all, n);
    assert all[n].0 == key;
  }

  lemma AssignmentInLast(references: seq<(string, string)>, primers: Dict, scan: (Dict, string) -> seq<Hit>, i: int, a: int, b: int)
    requires 0 <= i == |references| - 1
    requires 0 <= a < |scan(primers, references[i].1)| && 0 <= b < |scan(primers, references[i].1)|
    ensures AssignsKey(Assignments(references, primers, scan),
                       AmpliconName(references[i].0, scan(primers, references[i].1)[a].name, scan(primers, references[i].1)[b].name))
  {
    var prev := Assignments(references[..i], primers, scan);
    var all := Assignments(references, primers, scan);
    var last := references[i];
    var hits := scan(primers, last.1);
    var fw, rv := ForwardResults(hits), ReverseResults(hits);
    var p := Pairs(last.0, last.1, fw, rv);
    assert all == prev + p;
    var key := AmpliconName(last.0, hits[a].name, hits[b].name);
    assert fw[a].0 == hits[a].name && rv[b].0 == hits[b].name;
    PairsComplete(last.0, last.1, fw, rv, a, b);
    var m :| 0 <= m < |p| && p[m] == (AmpliconName(last.0, fw[a].0, rv[b].0), PySlice(last.1, fw[a].1, rv[b].1));
    ConcatIndex(prev, p, all, |prev| + m);
    assert all[|prev| + m].0 == key;
  }

  /** An index into a concatenation lands in one of its two parts. */
  lemma ConcatIndex<T>(x: seq<T>, y: seq<T>, xy: seq<T>, n: int)
    requires xy == x + y && 0 <= n < |xy|
    ensures n < |x| ==> xy[n] == x[n]
    ensures n >= |x| ==> xy[n] == y[n - |x|]
  {
  }

  /**
   * With genuine hits the amplicon of a forward hit `a` and a reverse hit `b` is the reference
   * from the start of primer `a` up to, but excluding, the last base of primer `b`; it is empty
   * when that end does not lie after the start. Pairing a hit with itself gives its primer
   * without its last base.
   */
  lemma AmpliconOfGenuineHits(reference: string, primers: Dict, hits: seq<Hit>, a: int, b: int)
    requires GenuineHits(reference, primers, hits)
    requires 0 <= a < |hits| && 0 <= b < |hits|
    ensures var s := hits[a].endIndex - |hits[a].primer| + 1;
      PySlice(reference, s, hits[b].endIndex) == if s < hits[b].endIndex then reference[s..hits[b].endIndex] else []
    ensures a == b && hits[a].primer != [] ==>
      PySlice(reference, hits[a].endIndex - |hits[a].primer| + 1, hits[a].endIndex) == hits[a].primer[..|hits[a].primer| - 1]
  {
    var s := hits[a].endIndex - |hits[a].primer| + 1;
    PySliceInRange(reference, s, hits[b].endIndex);
    if a == b && hits[a].primer != [] {
      var e := hits[a].endIndex;
      assert reference[s..e + 1][..|hits[a].primer| - 1] == reference[s..e];
    }
  }
}
