// The documentation generator, part one: reading a skill's frontmatter
// (the boundary lines, the name, description and version fields, and
// block-scalar descriptions).
module GenerateDocsFrontmatter {
  import opened Wrappers
  import opened Text
  import opened Seqs

  // ---------------------------------------------------------------------
  // FRONTMATTER_BOUNDARY = ^---\s*$ in multi-line mode

  predicate LineStart(text: string, p: nat)
  {
    p == 0 || (0 < p <= |text| && text[p - 1] == '\n')
  }

  predicate LineEnd(text: string, q: nat)
  {
    q == |text| || (q < |text| && text[q] == '\n')
  }

  /** The largest `q` in [lo, hi] at which `$` matches. */
  function LastLineEnd(text: string, lo: nat, hi: nat): (r: Option<nat>)
    requires lo <= hi <= |text|
    ensures r.Some? ==> (lo <= r.value <= hi && LineEnd(text, r.value)
      && forall q :: r.value < q <= hi ==> !LineEnd(text, q))
    ensures r.None? ==> forall q :: lo <= q <= hi ==> !LineEnd(text, q)
    decreases hi - lo
  {
    if LineEnd(text, hi) then Some(hi)
    else if hi == lo then None
    else LastLineEnd(text, lo, hi - 1)
  }

  /** Where a boundary match starting at `p` ends: after "---" the greedy
      `\s*` gives back characters until `$` holds. */
  function BoundaryEnd(text: string, p: nat): (r: Option<nat>)
    requires p <= |text|
    ensures r.Some? ==> p + 3 <= r.value <= |text|
  {
    if !LineStart(text, p) || p + 3 > |text| || text[p..p + 3] != "---" then None
    else LastLineEnd(text, p + 3, p + 3 + LeadingSpaces(text[p + 3..]))
  }

  function LeadingSpaces(s: string): (n: nat)
    ensures n <= |s| && (forall i :: 0 <= i < n ==> IsSpace(s[i])) && (n < |s| ==> !IsSpace(s[n]))
    decreases |s|
  {
    if s != [] && IsSpace(s[0]) then 1 + LeadingSpaces(s[1..]) else 0
  }

  /** The first boundary match at or after `from`: its start and end. */
  function FindBoundary(text: string, from: nat): (r: Option<(nat, nat)>)
    requires from <= |text|
    ensures r.Some? ==> from <= r.value.0 <= |text| && BoundaryEnd(text, r.value.0) == Some(r.value.1)
    ensures r.Some? ==> forall p :: from <= p < r.value.0 ==> BoundaryEnd(text, p).None?
    ensures r.None? ==> forall p :: from <= p <= |text| ==> BoundaryEnd(text, p).None?
    decreases |text| - from
  {
    match BoundaryEnd(text, from)
    case Some(e) => Some((from, e))
    case None => if from == |text| then None else FindBoundary(text, from + 1)
  }

  /** `parts[1]` of `FRONTMATTER_BOUNDARY.split(text, maxsplit=2)`, when there
      are three parts. */
  function FrontmatterBlock(text: string): (r: Option<string>)
  {
    match FindBoundary(text, 0)
    case None => None
    case Some(m1) =>
      match FindBoundary(text, m1.1)
      case None => None
      case Some(m2) => Some(text[m1.1..m2.0])
  }

  // ---------------------------------------------------------------------
  // read_frontmatter

  datatype Front = Front(name: string, desc: string, version: string)

  const NameKey := "name:"
  const DescKey := "description:"

  /** `.strip().strip('"').strip("'")`. */
  function FieldValue(s: string): string
  {
    StripChars(StripChars(Strip(s), {'"'}), {'\''})
  }

  predicate IsBlockIndicator(raw: string)
  {
    raw == "|" || raw == ">" || raw == "|-" || raw == ">-"
  }

  /** A line that continues a block scalar: indented, or blank. */
  predicate Indented(line: string)
  {
    StartsWith(line, "  ") || StartsWith(line, "\t")
  }

  predicate Continues(line: string)
  {
    Indented(line) || Strip(line) == []
  }

  /** Where the block scalar starting at line `j` ends. */
  function BlockEnd(block: seq<string>, j: nat): (n: nat)
    requires j <= |block|
    ensures j <= n <= |block| && (forall k :: j <= k < n ==> Continues(block[k]))
    ensures n < |block| ==> !Continues(block[n])
    decreases |block| - j
  {
    if j == |block| || !Continues(block[j]) then j else BlockEnd(block, j + 1)
  }

  function NonEmpty(x: string): bool { x != [] }

  /** The value of a block scalar with the given lines. */
  function BlockScalar(lines: seq<string>): string
  {
    Strip(Join(Filter(StripAll(lines), NonEmpty), " "))
  }

  /** Digits and dots, the class `[0-9.]`. */
  predicate IsVersionChar(c: char) { ('0' <= c <= '9') || c == '.' }

  function VersionRun(s: string): (n: nat)
    ensures n <= |s| && (forall i :: 0 <= i < n ==> IsVersionChar(s[i])) && (n < |s| ==> !IsVersionChar(s[n]))
    decreases |s|
  {
    if s != [] && IsVersionChar(s[0]) then 1 + VersionRun(s[1..]) else 0
  }

  predicate IsQuote(c: char) { c == '"' || c == '\'' }

  /** Drops one leading quote (the greedy optional `["']?`). */
  function OptQuote(s: string): (r: string)
    ensures r == s || (s != [] && r == s[1..])
  {
    if s != [] && IsQuote(s[0]) then s[1..] else s
  }

  /** Group 1 of `^\s*version:\s*["']?([0-9.]+)["']?\s*$`, when the line
      matches: the greedy digit run is followed only by an optional quote and
      whitespace, so the engine never backtracks into it. */
  function VersionMatch(line: string): (r: Option<string>)
    ensures r.Some? ==> r.value != [] && forall i :: 0 <= i < |r.value| ==> IsVersionChar(r.value[i])
  {
    var a := LeadingSpaces(line);
    var s := line[a..];
    if !StartsWith(s, "version:") then None
    else
      var t := s[8..];
      var u := OptQuote(t[LeadingSpaces(t)..]);
      var n := VersionRun(u);
      if n == 0 || !AllSpace(OptQuote(u[n..])) then None else Some(u[..n])
  }

  /** What one frontmatter line does to the fields read so far. */
  datatype LineAction = SetName(name: string) | StartBlock | SetDesc(desc: string) | SetVersion(version: string) | Skip

  /** The branches of the `while` loop of `read_frontmatter`, for one line. */
  function Action(line: string): LineAction
  {
    var stripped := Strip(line);
    if StartsWith(stripped, NameKey) then SetName(FieldValue(stripped[|NameKey|..]))
    else if StartsWith(stripped, DescKey) then
      var raw := Strip(stripped[|DescKey|..]);
      if IsBlockIndicator(raw) then StartBlock else SetDesc(FieldValue(raw))
    else
      match VersionMatch(line)
      case Some(v) => SetVersion(Strip(v))
      case None => Skip
  }

  /** One pass of the loop at line `i`: the next line index and the updated
      fields. */
  function Step(block: seq<string>, i: nat, st: Front): (r: (nat, Front))
    requires i < |block|
    ensures i < r.0 <= |block|
  {
    match Action(block[i])
    case SetName(v) => (i + 1, st.(name := v))
    case StartBlock =>
      var n := BlockEnd(block, i + 1);
      (n, st.(desc := BlockScalar(block[i + 1..n])))
    case SetDesc(v) => (i + 1, st.(desc := v))
    case SetVersion(v) => (i + 1, st.(version := v))
    case Skip => (i + 1, st)
  }

  /** The fields after the loop has run from line `i`. */
  function Scan(block: seq<string>, i: nat, st: Front): Front
    requires i <= |block|
    decreases |block| - i
  {
    if i == |block| then st
    else
      var (j, next) := Step(block, i, st);
      Scan(block, j, next)
  }

  /** What `read_frontmatter` returns for the file's text. */
  function Frontmatter(text: string): map<string, string>
  {
    match FrontmatterBlock(text)
    case None => map[]
    case Some(b) =>
      var f := Scan(Lines(b), 0, Front("", "", ""));
      map["name" := f.name, "description" := f.desc, "version" := f.version]
  }

  /** The inner `while` loop: the lines of a block scalar from `start`. */
  method ReadBlockScalar(block: seq<string>, start: nat) returns (i: nat, desc: string)
    requires start <= |block|
    ensures i == BlockEnd(block, start) && desc == BlockScalar(block[start..i])
  {
    var descLines: seq<string> := [];
    i := start;
    while i < |block|
      invariant start <= i <= |block| && BlockEnd(block, start) == BlockEnd(block, i)
      invariant descLines == StripAll(block[start..i])
      decreases |block| - i
    {
      var cont := block[i];
      StripAllStep(block, start, i);
      if Indented(cont) {
        descLines := descLines + [Strip(cont)];
        i := i + 1;
        continue;
      }
      if Strip(cont) == [] {
        descLines := descLines + [""];
        i := i + 1;
        continue;
      }
      break;
    }
    desc := Strip(Join(Filter(descLines, NonEmpty), " "));
  }

  /** Stripping one more line of a slice. */
  lemma StripAllStep(block: seq<string>, start: nat, i: nat)
    requires start <= i < |block|
    ensures StripAll(block[start..i + 1]) == StripAll(block[start..i]) + [Strip(block[i])]
  {
    assert block[start..i + 1] == block[start..i] + [block[i]];
  }

  /** The loop's state moves by one `Step`. */
  lemma ScanStep(block: seq<string>, i: nat, st: Front)
    requires i < |block|
    ensures Scan(block, i, st) == Scan(block, Step(block, i, st).0, Step(block, i, st).1)
  {
  }

  /** The tests of one pass of the loop of `read_frontmatter`. */
  method LineActionOf(line: string) returns (a: LineAction)
    ensures a == Action(line)
  {
    var stripped := Strip(line);
    if StartsWith(stripped, NameKey) {
      return SetName(FieldValue(stripped[|NameKey|..]));
    }
    if StartsWith(stripped, DescKey) {
      var raw := Strip(stripped[|DescKey|..]);
      if IsBlockIndicator(raw) {
        return StartBlock;
      }
      return SetDesc(FieldValue(raw));
    }
    var m := VersionMatch(line);
    if m.Some? {
      return SetVersion(Strip(m.value));
    }
    return Skip;
  }

  /** `read_frontmatter`. */
  method ReadFrontmatter(text: string) returns (fm: map<string, string>)
    ensures fm == Frontmatter(text)
  {
    var parts := FrontmatterBlock(text);
    if parts.None? {
      return map[];
    }
    var block := Lines(parts.value);
    var name, desc, version := "", "", "";
    var i := 0;
    while i < |block|
      invariant i <= |block| && Scan(block, i, Front(name, desc, version)) == Scan(block, 0, Front("", "", ""))
      decreases |block| - i
    {
      ghost var next := Step(block, i, Front(name, desc, version));
      ScanStep(block, i, Front(name, desc, version));
      var act := LineActionOf(block[i]);
      match act {
        case SetName(v) =>
          name := v;
          i := i + 1;
        case StartBlock =>
          i, desc := ReadBlockScalar(block, i + 1);
        case SetDesc(v) =>
          desc := v;
          i := i + 1;
        case SetVersion(v) =>
          version := v;
          i := i + 1;
        case Skip =>
          i := i + 1;
      }
      assert (i, Front(name, desc, version)) == next;
    }
    fm := map["name" := name, "description" := desc, "version" := version];
  }

  /** `{}` exactly when there is no second boundary; otherwise exactly the
      three keys. */
  lemma FrontmatterKeys(text: string)
    ensures Frontmatter(text) == map[] <==> FrontmatterBlock(text).None?
    ensures FrontmatterBlock(text).Some? ==> Frontmatter(text).Keys == {"name", "description", "version"}
  {
    if FrontmatterBlock(text).Some? {
      assert "name" in Frontmatter(text);
    }
  }

  /** When the first boundary starts the text and a later one follows, the
      block is the text between them. */
  lemma BlockBetweenBoundaries(text: string, e1: nat, s2: nat, e2: nat)
    requires BoundaryEnd(text, 0) == Some(e1) && e1 <= s2 <= |text| && BoundaryEnd(text, s2) == Some(e2)
    requires forall p :: e1 <= p < s2 ==> BoundaryEnd(text, p).None?
    ensures FrontmatterBlock(text) == Some(text[e1..s2])
  {
  }

  /** A stripped non-empty part has no whitespace at its ends. */
  predicate Trimmed(x: string)
  {
    x != [] && !IsSpace(x[0]) && !IsSpace(x[|x| - 1])
  }

  /** Joining trimmed parts with single spaces needs no final strip. */
  lemma {:induction false} JoinTrimmed(parts: seq<string>)
    requires forall k :: 0 <= k < |parts| ==> Trimmed(parts[k])
    ensures Join(parts, " ") == [] || Trimmed(Join(parts, " "))
    decreases |parts|
  {
    if |parts| > 1 {
      JoinTrimmed(parts[1..]);
      assert Join(parts, " ") == parts[0] + " " + Join(parts[1..], " ");
    }
  }

  /** A block scalar is the non-blank lines, trimmed, joined with single
      spaces: the final strip changes nothing. */
  lemma BlockScalarJoin(lines: seq<string>)
    ensures BlockScalar(lines) == Join(Filter(StripAll(lines), NonEmpty), " ")
  {
    var parts := Filter(StripAll(lines), NonEmpty);
    forall k | 0 <= k < |parts| ensures Trimmed(parts[k]) {
      assert parts[k] in StripAll(lines);
    }
    JoinTrimmed(parts);
    var j := Join(parts, " ");
    if j != [] {
      StripNoEdgeSpace(j);
    }
  }

  /** A block scalar stops at the first line that is neither indented nor
      blank and takes every line before it. */
  lemma BlockScalarExtent(block: seq<string>, j: nat, n: nat)
    requires j <= n <= |block| && (forall k :: j <= k < n ==> Continues(block[k]))
    requires n < |block| ==> !Continues(block[n])
    ensures BlockEnd(block, j) == n
    decreases n - j
  {
    if j < n {
      BlockScalarExtent(block, j + 1, n);
    }
  }

  /** The leading space of " " + `q` is stripped. */
  lemma StripLeadingSpace(q: string)
    requires Trimmed(q)
    ensures Strip(" " + q) == q
  {
    assert (" " + q)[1..] == q;
    StripNoEdgeSpace(q);
  }

  /** A value quoted with `"` is read without its quotes and the whitespace
      before it. */
  lemma DoubleQuotedValue(v: string)
    requires Trimmed(v) && !IsQuote(v[0]) && !IsQuote(v[|v| - 1])
    ensures FieldValue(" \"" + v + "\"") == v
  {
    var q := "\"" + v + "\"";
    assert " \"" + v + "\"" == " " + q;
    StripLeadingSpace(q);
    StripWrapped(v, '"');
    StripCharsNoEdge(v, '\'');
  }

  /** A value quoted with `'` is read without its quotes. */
  lemma SingleQuotedValue(v: string)
    requires Trimmed(v) && !IsQuote(v[0]) && !IsQuote(v[|v| - 1])
    ensures FieldValue("'" + v + "'") == v
  {
    var q := "'" + v + "'";
    StripNoEdgeSpace(q);
    assert StripChars(q, {'"'}) == q;
    StripWrapped(v, '\'');
  }
}
