// The skill importer's scan: finds SKILL.md files below a directory, reads
// their frontmatter, prints a brief per skill with heuristic security flags,
// and exits 0 only when some valid skill was found.
module SkillImporterScan {
  import opened Wrappers
  import opened Text
  import opened Seqs

  const Boundary := "---"
  const MaxDepth: nat := 6
  const MaxShownHits: nat := 5

  /** `extract_frontmatter`: the second `---`-separated segment, trimmed, or
      the empty string when the text has no `---`. */
  function ExtractFrontmatter(text: string): (r: string)
    ensures !Contains(text, Boundary) ==> r == ""
    ensures Contains(text, Boundary) ==> |Split(text, Boundary)| >= 2 && r == Strip(Split(text, Boundary)[1])
  {
    if !Contains(text, Boundary) then ""
    else
      var parts := Split(text, Boundary);
      if |parts| >= 2 then Strip(parts[1]) else ""
  }

  /** A block `---fm---body` whose frontmatter holds no `---` and does not end
      with `-` yields exactly that frontmatter, trimmed. */
  lemma FrontmatterRoundTrip(fm: string, body: string)
    requires !Contains(fm, Boundary) && (fm == [] || fm[|fm| - 1] != '-')
    ensures ExtractFrontmatter(Boundary + fm + Boundary + body) == Strip(fm)
  {
    var rest := fm + Boundary + body;
    AppendAssoc(Boundary + fm, Boundary, body);
    AppendAssoc(Boundary, fm, Boundary + body);
    AppendAssoc(fm, Boundary, body);
    OpeningBoundary(rest);
    FirstBoundaryAfter(fm, body);
    assert rest[..|fm|] == fm;
    assert Split(rest, Boundary)[0] == fm;
  }

  lemma OpeningBoundary(rest: string)
    ensures Split(Boundary + rest, Boundary) == [""] + Split(rest, Boundary)
  {
    var text := Boundary + rest;
    assert text[..3] == Boundary;
    assert OccursAt(text, Boundary, 0);
    assert text[3..] == rest;
  }

  lemma FirstBoundaryAfter(fm: string, body: string)
    requires !Contains(fm, Boundary) && (fm == [] || fm[|fm| - 1] != '-')
    ensures IndexOf(fm + Boundary + body, Boundary) == Some(|fm|)
  {
    var rest := fm + Boundary + body;
    assert rest[|fm|..|fm| + 3] == Boundary;
    assert OccursAt(rest, Boundary, |fm|);
    forall j | 0 <= j < |fm| ensures !OccursAt(rest, Boundary, j) {
      NoBoundaryBefore(fm, body, j);
    }
  }

  lemma NoBoundaryBefore(fm: string, body: string, j: nat)
    requires !Contains(fm, Boundary) && (fm == [] || fm[|fm| - 1] != '-') && j < |fm|
    ensures !OccursAt(fm + Boundary + body, Boundary, j)
  {
    var rest := fm + Boundary + body;
    if j + 3 <= |fm| {
      ContainsIff(fm, Boundary);
      assert !OccursAt(fm, Boundary, j);
      assert fm[j..j + 3] == rest[j..j + 3];
    } else {
      assert rest[j..j + 3][|fm| - 1 - j] == fm[|fm| - 1] != Boundary[|fm| - 1 - j];
    }
  }

  /** The line `get_yaml` takes: its trimmed form starts with `key:`. */
  predicate KeyLine(line: string, key: string)
  {
    StartsWith(Strip(line), key + ":")
  }

  /** `line.split(":", 1)[1].strip().strip("'\"").strip()`. */
  function ValueAfterColon(line: string): (r: string)
    ensures r != [] ==> !IsSpace(r[0]) && !IsSpace(r[|r| - 1])
  {
    match SplitOnce(line, ":")
    case None => ""
    case Some((_, v)) => Strip(StripChars(Strip(v), {'\'', '"'}))
  }

  predicate HasKeyLine(lines: seq<string>, key: string)
  {
    exists k :: 0 <= k < |lines| && KeyLine(lines[k], key)
  }

  /** Index of the first key line. */
  function FirstMatch(lines: seq<string>, key: string): (k: nat)
    requires HasKeyLine(lines, key)
    ensures k < |lines| && KeyLine(lines[k], key) && forall j :: 0 <= j < k ==> !KeyLine(lines[j], key)
    decreases |lines|
  {
    if KeyLine(lines[0], key) then 0
    else
      var tail := lines[1..];
      assert HasKeyLine(tail, key) by {
        var k :| 0 <= k < |lines| && KeyLine(lines[k], key);
        assert tail[k - 1] == lines[k];
      }
      1 + FirstMatch(tail, key)
  }

  /** The value of the first key line, or the empty string. */
  function YamlValue(lines: seq<string>, key: string): (r: string)
    ensures !HasKeyLine(lines, key) ==> r == ""
    ensures HasKeyLine(lines, key) ==> r == ValueAfterColon(lines[FirstMatch(lines, key)])
    decreases |lines|
  {
    if lines == [] then ""
    else if KeyLine(lines[0], key) then ValueAfterColon(lines[0])
    else
      var tail := lines[1..];
      assert HasKeyLine(lines, key) ==> HasKeyLine(tail, key) by {
        if HasKeyLine(lines, key) {
          var k :| 0 <= k < |lines| && KeyLine(lines[k], key);
          assert tail[k - 1] == lines[k];
        }
      }
      assert HasKeyLine(tail, key) ==> HasKeyLine(lines, key) by {
        if HasKeyLine(tail, key) {
          var k :| 0 <= k < |tail| && KeyLine(tail[k], key);
          assert tail[k] == lines[k + 1];
        }
      }
      YamlValue(tail, key)
  }

  /** `get_yaml`: the value of the first line whose trimmed form starts with
      `key:`, or the empty string when there is none. */
  function GetYaml(fm: string, key: string): (r: string)
    ensures !HasKeyLine(Lines(fm), key) ==> r == ""
    ensures HasKeyLine(Lines(fm), key) ==>
      var k := FirstMatch(Lines(fm), key);
      r == ValueAfterColon(Lines(fm)[k]) && forall j :: 0 <= j < k ==> !KeyLine(Lines(fm)[j], key)
    ensures r != [] ==> !IsSpace(r[0]) && !IsSpace(r[|r| - 1])
  {
    YamlValue(Lines(fm), key)
  }

  /** The name declared in a SKILL.md text. */
  function SkillName(text: string): string
  {
    GetYaml(ExtractFrontmatter(text), "name")
  }

  // ---------------------------------------------------------------------
  // skill_brief

  /** One hit per flagged line of a file, as `path:line` with lines from 1. */
  function LineHitStep(path: string, flagged: string -> bool): (string, nat) -> seq<string>
  {
    (line: string, n: nat) => if flagged(line) then [path + ":" + NatToStr(n)] else []
  }

  /** The hits of one file of `scripts/` or `assets/`; a file that cannot be
      read (None) contributes none. */
  function FileHitStep(flagged: string -> bool): ((string, Option<string>), nat) -> seq<string>
  {
    (f: (string, Option<string>), i: nat) =>
      match f.1
      case None => []
      case Some(text) => FlatMap(LineHitStep(f.0, flagged), Lines(text), 1)
  }

  /** A file has exactly as many hits as flagged lines. */
  lemma {:induction false} LineHitsCount(path: string, flagged: string -> bool, lines: seq<string>, first: nat)
    ensures |FlatMap(LineHitStep(path, flagged), lines, first)| == CountIf(lines, flagged)
    decreases |lines|
  {
    if lines != [] {
      var init := lines[..|lines| - 1];
      LineHitsCount(path, flagged, init, first);
      CountIfAppend(init, [lines[|lines| - 1]], flagged);
      assert init + [lines[|lines| - 1]] == lines;
    }
  }

  /** The line loop for one readable file. */
  method FileHits(path: string, lines: seq<string>, flagged: string -> bool) returns (hits: seq<string>)
    ensures hits == FlatMap(LineHitStep(path, flagged), lines, 1)
  {
    hits := [];
    ghost var g := LineHitStep(path, flagged);
    for n := 0 to |lines|
      invariant hits == FlatMap(g, lines[..n], 1)
    {
      FlatMapPrefixStep(g, lines, 1, n);
      if flagged(lines[n]) {
        hits := hits + [path + ":" + NatToStr(n + 1)];
      }
    }
    assert lines[..|lines|] == lines;
  }

  /** The hits loop of `skill_brief`: files in the order given, lines in order. */
  method CollectHits(files: seq<(string, Option<string>)>, flagged: string -> bool) returns (hits: seq<string>)
    ensures hits == FlatMap(FileHitStep(flagged), files, 0)
  {
    hits := [];
    ghost var f := FileHitStep(flagged);
    for k := 0 to |files|
      invariant hits == FlatMap(f, files[..k], 0)
    {
      FlatMapPrefixStep(f, files, 0, k);
      var (path, content) := files[k];
      ghost var before := hits;
      if content.Some? {
        var more := FileHits(path, Lines(content.value), flagged);
        hits := hits + more;
      } else {
        assert f(files[k], k) == [];
      }
    }
    assert files[..|files|] == files;
  }

  /** The security section: a review header and the first five hits, or the
      all-clear line. */
  function SecurityLines(hits: seq<string>): (r: seq<string>)
    ensures hits == [] ==> r == ["Security: No heuristic concerns"]
    ensures hits != [] ==>
      |r| == 1 + (if |hits| < MaxShownHits then |hits| else MaxShownHits)
      && r[0] == "Security: REVIEW (heuristic flags)"
      && forall i :: 1 <= i < |r| ==> r[i] == "  " + hits[i - 1]
    ensures |r| <= 1 + MaxShownHits
  {
    if hits == [] then ["Security: No heuristic concerns"]
    else
      var shown := if |hits| <= MaxShownHits then hits else hits[..MaxShownHits];
      ["Security: REVIEW (heuristic flags)"] + seq(|shown|, i requires 0 <= i < |shown| => "  " + shown[i])
  }

  /** `get_yaml(fm, "description") or "(no description)"`. */
  function DescriptionOr(text: string): (r: string)
    ensures r != []
  {
    var desc := GetYaml(ExtractFrontmatter(text), "description");
    if desc == "" then "(no description)" else desc
  }

  /** The lines of a brief: a separator, the skill, its directory and
      description, the security section and a blank line. */
  function BriefLines(name: string, dirName: string, desc: string, hits: seq<string>): (r: seq<string>)
    ensures |r| == 5 + |SecurityLines(hits)| && |r| <= 6 + MaxShownHits
    ensures r[0] == "---" && r[1] == "Skill: " + name && r[2] == "Directory: " + dirName
    ensures r[3] == "Description: " + desc && r[|r| - 1] == ""
    ensures r[4..|r| - 1] == SecurityLines(hits)
  {
    var head := ["---", "Skill: " + name, "Directory: " + dirName, "Description: " + desc];
    var r := head + SecurityLines(hits) + [""];
    assert r[4..|r| - 1] == SecurityLines(hits);
    r
  }

  /** `skill_brief`: nothing is printed (None) when SKILL.md is missing or
      declares no name; otherwise the brief with the declared name and the
      description or its placeholder. */
  function SkillBrief(dirName: string, skillMd: Option<string>, hits: seq<string>): (r: Option<seq<string>>)
    ensures r.None? <==> skillMd.None? || SkillName(skillMd.value) == ""
    ensures r.Some? ==> r.value == BriefLines(SkillName(skillMd.value), dirName, DescriptionOr(skillMd.value), hits)
  {
    if skillMd.None? then None
    else
      var name := SkillName(skillMd.value);
      if name == "" then None
      else Some(BriefLines(name, dirName, DescriptionOr(skillMd.value), hits))
  }

  // ---------------------------------------------------------------------
  // main

  /** A SKILL.md found below the scan root: the number of parts of its path
      relative to the root, whether it is a regular file, and its text. */
  datatype Candidate = Candidate(parts: nat, isFile: bool, text: string)

  /** The candidates `main` counts: files at most six path parts deep that
      declare a name. */
  predicate Counted(c: Candidate)
  {
    c.isFile && c.parts <= MaxDepth && SkillName(c.text) != ""
  }

  /** The counting loop of `main`. */
  method CountSkills(candidates: seq<Candidate>) returns (count: nat)
    ensures count == CountIf(candidates, Counted)
    ensures count <= |candidates|
  {
    count := 0;
    for k := 0 to |candidates|
      invariant count == CountIf(candidates[..k], Counted)
    {
      CountIfPrefixStep(candidates, Counted, k);
      var c := candidates[k];
      if c.isFile && c.parts <= MaxDepth && SkillName(c.text) != "" {
        count := count + 1;
      }
    }
    assert candidates[..|candidates|] == candidates;
  }

  /** A SKILL.md deeper than six parts never changes the count. */
  lemma DeepSkillIgnored(candidates: seq<Candidate>, c: Candidate)
    requires c.parts > MaxDepth
    ensures CountIf(candidates + [c], Counted) == CountIf(candidates, Counted)
  {
    CountIfAppend(candidates, [c], Counted);
    assert CountIf([c], Counted) == 0;
  }

  /** `main`: the scan root must be a directory (1 otherwise); when the
      validation script exists its ensure-only run is checked first (its exit
      2 is passed on, any other failure becomes 1); then 1 when no skill was
      counted and 0 otherwise.  `precheck` is None when the script is absent. */
  method Scan(rootIsDir: bool, precheck: Option<int>, candidates: seq<Candidate>) returns (code: int)
    ensures !rootIsDir ==> code == 1
    ensures rootIsDir && precheck == Some(2) ==> code == 2
    ensures rootIsDir && precheck.Some? && precheck.value !in {0, 2} ==> code == 1
    ensures rootIsDir && (precheck.None? || precheck == Some(0)) ==>
      (code == 0 <==> CountIf(candidates, Counted) > 0) && code in {0, 1}
    ensures code in {0, 1, 2}
  {
    if !rootIsDir {
      return 1;
    }
    if precheck.Some? {
      if precheck.value == 2 {
        return 2;
      }
      if precheck.value != 0 {
        return 1;
      }
    }
    var count := CountSkills(candidates);
    code := if count == 0 then 1 else 0;
  }
}
