/**
 * The string sanitisers of the backend: `normalizeFilename` (applied to every uploaded file's
 * name), the POSIX `path.basename` it relies on, and the `safeName` cleaning of a FASTQ sample name.
 */
module Filenames {
  import opened Common

  // ---------------------------------------------------------------------------
  // path.posix.basename

  function TrimTrailingSlashes(s: string): (r: string)
    ensures |r| <= |s| && r == s[..|r|]
    ensures r == [] || r[|r| - 1] != '/'
    ensures forall i :: |r| <= i < |s| ==> s[i] == '/'
  {
    if s != [] && s[|s| - 1] == '/' then TrimTrailingSlashes(s[..|s| - 1]) else s
  }

  function AfterLastSlash(s: string): (r: string)
    ensures |r| <= |s| && r == s[|s| - |r|..]
    ensures '/' !in r
  {
    if s == [] then []
    else if s[|s| - 1] == '/' then []
    else AfterLastSlash(s[..|s| - 1]) + [s[|s| - 1]]
  }

  /** Node's `path.posix.basename`: trailing slashes are ignored and the last path segment is kept. */
  function Basename(path: string): (r: string)
    ensures '/' !in r
    ensures |r| <= |path|
  {
    AfterLastSlash(TrimTrailingSlashes(path))
  }

  lemma {:induction false} AfterLastSlashNoSlash(s: string)
    requires '/' !in s
    ensures AfterLastSlash(s) == s
  {
    if s != [] {
      AfterLastSlashNoSlash(s[..|s| - 1]);
    }
  }

  lemma {:induction false} AfterLastSlashOfJoin(dir: string, name: string)
    requires '/' !in name
    ensures AfterLastSlash(dir + "/" + name) == name
    decreases |name|
  {
    var s := dir + "/" + name;
    if name == [] {
      assert s[|s| - 1] == '/';
    } else {
      var n' := name[..|name| - 1];
      assert s[..|s| - 1] == dir + "/" + n';
      AfterLastSlashOfJoin(dir, n');
    }
  }

  /** A name without '/' is its own basename. */
  lemma BasenameOfPlainName(name: string)
    requires '/' !in name
    ensures Basename(name) == name
  {
    assert TrimTrailingSlashes(name) == name;
    AfterLastSlashNoSlash(name);
  }

  /** The basename of `dir + "/" + name` is `name`, for a non-empty name without '/'. */
  lemma BasenameOfJoin(dir: string, name: string)
    requires name != [] && '/' !in name
    ensures Basename(dir + "/" + name) == name
  {
    var s := dir + "/" + name;
    assert s[|s| - 1] == name[|name| - 1];
    assert TrimTrailingSlashes(s) == s;
    AfterLastSlashOfJoin(dir, name);
  }

  // ---------------------------------------------------------------------------
  // normalizeFilename

  /** The characters JavaScript's `\s` matches. */
  predicate IsJsWhitespace(c: char) {
    c == '\t' || c == '\n' || c == '\U{000B}' || c == '\U{000C}' || c == '\r' || c == ' '
    || c == '\U{00A0}' || c == '\U{1680}' || ('\U{2000}' <= c <= '\U{200A}')
    || c == '\U{2028}' || c == '\U{2029}' || c == '\U{202F}' || c == '\U{205F}'
    || c == '\U{3000}' || c == '\U{FEFF}'
  }

  predicate AllWhitespace(w: string) {
    forall i :: 0 <= i < |w| ==> IsJsWhitespace(w[i])
  }

  /** The characters `[a-z0-9._-]` that survive normalisation. */
  predicate IsFilenameChar(c: char) {
    IsLowerAscii(c) || IsDigit(c) || c == '.' || c == '_' || c == '-'
  }

  predicate AllFilenameChars(s: string) {
    forall i :: 0 <= i < |s| ==> IsFilenameChar(s[i])
  }

  /** Drops the leading whitespace of `s`. */
  function DropWhitespace(s: string): (r: string)
    ensures |r| <= |s| && r == s[|s| - |r|..]
    ensures r == [] || !IsJsWhitespace(r[0])
    ensures AllWhitespace(s[..|s| - |r|])
    ensures s != [] && !IsJsWhitespace(s[|s| - 1]) ==> r != [] && r[|r| - 1] == s[|s| - 1]
  {
    if s != [] && IsJsWhitespace(s[0]) then DropWhitespace(s[1..]) else s
  }

  /** `replace(/\s+/g, "_")`: every maximal run of whitespace becomes a single '_'. */
  function CollapseWhitespace(s: string): (r: string)
    ensures |r| <= |s|
    decreases |s|
  {
    if s == [] then []
    else if IsJsWhitespace(s[0]) then "_" + CollapseWhitespace(DropWhitespace(s[1..]))
    else [s[0]] + CollapseWhitespace(s[1..])
  }

  /** `replace(/[^a-z0-9._-]/g, "_")`. */
  function ReplaceDisallowed(s: string): (r: string)
    ensures |r| == |s|
    ensures forall i :: 0 <= i < |s| ==> r[i] == if IsFilenameChar(s[i]) then s[i] else '_'
  {
    if s == [] then [] else [if IsFilenameChar(s[0]) then s[0] else '_'] + ReplaceDisallowed(s[1..])
  }

  /** `normalizeFilename`: basename, lower-case, whitespace runs to '_', other characters outside `[a-z0-9._-]` to '_'. */
  function NormalizeFilename(name: string): (r: string)
    ensures AllFilenameChars(r)
    ensures '/' !in r
    ensures |r| <= |name|
  {
    ReplaceDisallowed(CollapseWhitespace(Lower(Basename(name))))
  }

  lemma {:induction false} DropWhitespaceOfAllWhitespace(w: string, b: string)
    requires AllWhitespace(w)
    requires b == [] || !IsJsWhitespace(b[0])
    ensures DropWhitespace(w + b) == b
    decreases |w|
  {
    if w == [] {
      assert w + b == b;
    } else {
      assert (w + b)[0] == w[0];
      assert (w + b)[1..] == w[1..] + b;
      DropWhitespaceOfAllWhitespace(w[1..], b);
    }
  }

  lemma {:induction false} DropWhitespaceOfAppend(t: string, u: string)
    requires t != [] && !IsJsWhitespace(t[|t| - 1])
    ensures DropWhitespace(t + u) == DropWhitespace(t) + u
    decreases |t|
  {
    if IsJsWhitespace(t[0]) {
      assert (t + u)[1..] == t[1..] + u;
      DropWhitespaceOfAppend(t[1..], u);
    }
  }

  lemma CollapseWhitespaceLeading(w: string, b: string)
    requires w != [] && AllWhitespace(w)
    requires b == [] || !IsJsWhitespace(b[0])
    ensures CollapseWhitespace(w + b) == "_" + CollapseWhitespace(b)
  {
    var s := w + b;
    assert IsJsWhitespace(s[0]);
    assert s[1..] == w[1..] + b;
    DropWhitespaceOfAllWhitespace(w[1..], b);
  }

  /** Collapsing distributes over a cut that does not fall inside a whitespace run. */
  lemma {:induction false} CollapseWhitespaceSplit(x: string, y: string)
    requires x == [] || !IsJsWhitespace(x[|x| - 1])
    ensures CollapseWhitespace(x + y) == CollapseWhitespace(x) + CollapseWhitespace(y)
    decreases |x|, 1
  {
    if x == [] {
      assert x + y == y;
    } else if !IsJsWhitespace(x[0]) {
      CollapseSplitAfterChar(x, y);
    } else {
      CollapseSplitAfterRun(x, y);
    }
  }

  lemma {:induction false} CollapseSplitAfterChar(x: string, y: string)
    requires x != [] && !IsJsWhitespace(x[0]) && !IsJsWhitespace(x[|x| - 1])
    ensures CollapseWhitespace(x + y) == CollapseWhitespace(x) + CollapseWhitespace(y)
    decreases |x|, 0
  {
    assert (x + y)[1..] == x[1..] + y;
    assert CollapseWhitespace(x + y) == [x[0]] + CollapseWhitespace(x[1..] + y);
    CollapseWhitespaceSplit(x[1..], y);
  }

  lemma {:induction false} CollapseSplitAfterRun(x: string, y: string)
    requires x != [] && IsJsWhitespace(x[0]) && !IsJsWhitespace(x[|x| - 1])
    ensures CollapseWhitespace(x + y) == CollapseWhitespace(x) + CollapseWhitespace(y)
    decreases |x|, 0
  {
    var t' := DropWhitespace(x[1..]);
    CollapseLeadingRunStep(x, y);
    CollapseWhitespaceSplit(t', y);
    PrefixThenSplit(CollapseWhitespace(x + y), CollapseWhitespace(x), CollapseWhitespace(t' + y),
                    CollapseWhitespace(t'), CollapseWhitespace(y));
  }

  /** `"_" + (a + b) == ("_" + a) + b`, in the form the split proof uses. */
  lemma PrefixThenSplit(xy: string, x: string, ty: string, t: string, y: string)
    requires xy == "_" + ty && ty == t + y && x == "_" + t
    ensures xy == x + y
  {
  }

  /** The first step of collapsing `x + y` when `x` starts with a whitespace run and ends outside one. */
  lemma CollapseLeadingRunStep(x: string, y: string)
    requires x != [] && IsJsWhitespace(x[0]) && !IsJsWhitespace(x[|x| - 1])
    ensures var t' := DropWhitespace(x[1..]);
      t' != [] && !IsJsWhitespace(t'[|t'| - 1]) && |t'| < |x| &&
      CollapseWhitespace(x + y) == "_" + CollapseWhitespace(t' + y) &&
      CollapseWhitespace(x) == "_" + CollapseWhitespace(t')
  {
    var t := x[1..];
    assert t[|t| - 1] == x[|x| - 1];
    assert (x + y)[0] == x[0] && (x + y)[1..] == t + y;
    DropWhitespaceOfAppend(t, y);
  }

  /** A whitespace run between two non-whitespace neighbours turns into exactly one '_'. */
  lemma CollapseWhitespaceRun(a: string, w: string, b: string)
    requires w != [] && AllWhitespace(w)
    requires a == [] || !IsJsWhitespace(a[|a| - 1])
    requires b == [] || !IsJsWhitespace(b[0])
    ensures CollapseWhitespace(a + (w + b)) == CollapseWhitespace(a) + ("_" + CollapseWhitespace(b))
  {
    CollapseWhitespaceSplit(a, w + b);
    CollapseWhitespaceLeading(w, b);
  }

  lemma {:induction false} LowerOfFilenameChars(s: string)
    requires AllFilenameChars(s)
    ensures Lower(s) == s
  {
  }

  lemma {:induction false} CollapseWithoutWhitespace(s: string)
    requires forall i :: 0 <= i < |s| ==> !IsJsWhitespace(s[i])
    ensures CollapseWhitespace(s) == s
    decreases |s|
  {
    if s != [] {
      CollapseWithoutWhitespace(s[1..]);
    }
  }

  /** Normalising an already normalised name changes nothing. */
  lemma NormalizeFilenameIdempotent(name: string)
    ensures NormalizeFilename(NormalizeFilename(name)) == NormalizeFilename(name)
  {
    var n := NormalizeFilename(name);
    BasenameOfPlainName(n);
    LowerOfFilenameChars(n);
    CollapseWithoutWhitespace(n);
  }

  // ---------------------------------------------------------------------------
  // safeName of /create-fastq

  /** The characters `[a-zA-Z0-9_-]` kept by the first `replace` of `safeName`. */
  predicate IsSafeNameChar(c: char) {
    IsLowerAscii(c) || IsUpperAscii(c) || IsDigit(c) || c == '_' || c == '-'
  }

  predicate AllSafeNameChars(s: string) {
    forall i :: 0 <= i < |s| ==> IsSafeNameChar(s[i])
  }

  /** `replace(/[^a-zA-Z0-9_\-]/g, "")`: every other character is removed. */
  function KeepSafeChars(s: string): (r: string)
    ensures |r| <= |s|
    ensures AllSafeNameChars(r)
    ensures AllSafeNameChars(s) ==> r == s
  {
    if s == [] then []
    else if IsSafeNameChar(s[0]) then [s[0]] + KeepSafeChars(s[1..])
    else KeepSafeChars(s[1..])
  }

  /**
   * `replace(/\.(fastq|fq)(\.gz)?$/i, "")`: the leftmost match of the anchored pattern is the
   * longest of the four suffixes it accepts, and it is removed once.
   */
  function StripFastqExtension(s: string): (r: string)
    ensures |r| <= |s| && r == s[..|r|]
    ensures '.' !in s ==> r == s
  {
    if EndsWithIgnoringCase(s, ".fastq.gz") then DotAt(s, |s| - 9); s[..|s| - 9]
    else if EndsWithIgnoringCase(s, ".fq.gz") then DotAt(s, |s| - 6); s[..|s| - 6]
    else if EndsWithIgnoringCase(s, ".fastq") then DotAt(s, |s| - 6); s[..|s| - 6]
    else if EndsWithIgnoringCase(s, ".fq") then DotAt(s, |s| - 3); s[..|s| - 3]
    else s
  }

  /** A matched extension starts with a '.' of `s` itself ('.' has no other case). */
  lemma DotAt(s: string, k: nat)
    requires k < |s| && Lower(s[k..])[0] == '.'
    ensures s[k] == '.' && '.' in s
  {
    assert s[k..][0] == s[k];
  }

  /** `safeName`: the sample name with every character outside `[A-Za-z0-9_-]` removed, then a FASTQ extension stripped. */
  function SafeName(sampleName: string): (r: string)
    ensures AllSafeNameChars(r)
    ensures '/' !in r
    ensures |r| <= |sampleName|
  {
    var kept := KeepSafeChars(sampleName);
    var r := StripFastqExtension(kept);
    assert forall i :: 0 <= i < |r| ==> r[i] == kept[i];
    r
  }

  /** The extension strip of `safeName` can never fire: the first `replace` already removed every '.'. */
  lemma SafeNameStripIsNoOp(sampleName: string)
    ensures SafeName(sampleName) == KeepSafeChars(sampleName)
    ensures StripFastqExtension(KeepSafeChars(sampleName)) == KeepSafeChars(sampleName)
  {
    var kept := KeepSafeChars(sampleName);
    assert forall i :: 0 <= i < |kept| ==> kept[i] != '.';
  }

  lemma SafeNameIdempotent(sampleName: string)
    ensures SafeName(SafeName(sampleName)) == SafeName(sampleName)
  {
    SafeNameStripIsNoOp(sampleName);
    SafeNameStripIsNoOp(SafeName(sampleName));
  }

  /** Two sample names that differ only in punctuation get the same `safeName`. */
  lemma SafeNameCollision()
    ensures SafeName("run.A") == SafeName("runA") == "runA"
  {
    SafeNameStripIsNoOp("run.A");
    SafeNameStripIsNoOp("runA");
    assert AllSafeNameChars("runA");
    KeepSafeCharsCons('.', "A");
    assert ['n'] + "A" == "nA";
    KeepSafeCharsCons('n', ".A");
    assert ['u'] + "nA" == "unA";
    KeepSafeCharsCons('u', "n.A");
    assert ['r'] + "unA" == "runA";
    KeepSafeCharsCons('r', "un.A");
  }

  lemma KeepSafeCharsCons(c: char, s: string)
    ensures KeepSafeChars([c] + s) == if IsSafeNameChar(c) then [c] + KeepSafeChars(s) else KeepSafeChars(s)
  {
    assert ([c] + s)[1..] == s;
  }
}
