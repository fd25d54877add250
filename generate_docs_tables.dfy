// The documentation generator, part two: the shipped-skill records and the
// rows of the skills table, and the platform rows read from the registry
// table.
module GenerateDocsTables {
  import opened Wrappers
  import opened Text
  import opened Seqs

  // ---------------------------------------------------------------------
  // collect_skills

  /** A shipped skill as the generator records it (its path is left out). */
  datatype Skill = Skill(id: string, name: string, description: string, version: string)

  function Lookup(fm: map<string, string>, key: string): string
  {
    if key in fm then fm[key] else ""
  }

  /** The record for the skill in directory `id` with frontmatter `fm`. */
  function SkillOf(id: string, fm: map<string, string>): (r: Skill)
    ensures r.id == id && r.version == Lookup(fm, "version")
  {
    var name := Lookup(fm, "name");
    Skill(id, if name == [] then id else name,
          Strip(Replace(Lookup(fm, "description"), "\n", " ")), Lookup(fm, "version"))
  }

  /** `collect_skills` over the skill directories found, in sorted order,
      each with the frontmatter read from its SKILL.md. */
  method CollectSkills(found: seq<(string, map<string, string>)>) returns (skills: seq<Skill>)
    ensures |skills| == |found|
    ensures forall k :: 0 <= k < |found| ==> skills[k] == SkillOf(found[k].0, found[k].1)
  {
    skills := [];
    for k := 0 to |found|
      invariant |skills| == k
      invariant forall j :: 0 <= j < k ==> skills[j] == SkillOf(found[j].0, found[j].1)
    {
      var fm := found[k].1;
      var skillId := found[k].0;
      var name := Lookup(fm, "name");
      if name == [] {
        name := skillId;
      }
      var description := Strip(Replace(Lookup(fm, "description"), "\n", " "));
      skills := skills + [Skill(skillId, name, description, Lookup(fm, "version"))];
    }
  }

  /** A skill's name falls back to its directory name, and its description
      is on one line. */
  lemma SkillOfProperties(id: string, fm: map<string, string>)
    ensures id != [] ==> SkillOf(id, fm).name != []
    ensures "name" in fm && fm["name"] != [] ==> SkillOf(id, fm).name == fm["name"]
    ensures '\n' !in SkillOf(id, fm).description
  {
    var d := Lookup(fm, "description");
    ReplaceCharByChar(d, '\n', ' ');
    var r := Replace(d, "\n", " ");
    assert '\n' !in r by {
      forall i | 0 <= i < |r| ensures r[i] != '\n' {
      }
    }
    StripKeepsAbsent(r, '\n');
  }

  // ---------------------------------------------------------------------
  // write_skills_md: the rows of the skills table

  const NoDescription := "No description in frontmatter."

  /** `description.replace("|", "\\|")`. */
  function EscapePipes(s: string): string
  {
    Replace(s, "|", "\\|")
  }

  /** The inverse of `EscapePipes`. */
  function UnescapePipes(s: string): string
  {
    Replace(s, "\\|", "|")
  }

  function DescCell(description: string): string
  {
    var desc := EscapePipes(description);
    if desc == [] then NoDescription else desc
  }

  function VersionCell(version: string): string
  {
    if version == [] then "n/a" else version
  }

  function Code(s: string): string
  {
    "`" + s + "`"
  }

  /** One row of the table in SKILLS.md. */
  function SkillRow(skill: Skill): string
  {
    "| " + Code(skill.id) + " | " + Code(skill.name) + " | " + Code(VersionCell(skill.version))
      + " | " + DescCell(skill.description) + " |"
  }

  /** The loop that appends one table row per skill. */
  method SkillTableRows(skills: seq<Skill>) returns (rows: seq<string>)
    ensures |rows| == |skills|
    ensures forall k :: 0 <= k < |skills| ==> rows[k] == SkillRow(skills[k])
  {
    rows := [];
    for k := 0 to |skills|
      invariant |rows| == k
      invariant forall j :: 0 <= j < k ==> rows[j] == SkillRow(skills[j])
    {
      var skill := skills[k];
      var desc := EscapePipes(skill.description);
      if desc == [] {
        desc := NoDescription;
      }
      rows := rows + ["| " + Code(skill.id) + " | " + Code(skill.name) + " | " + Code(VersionCell(skill.version))
        + " | " + desc + " |"];
    }
  }

  /** Every `|` of an escaped description follows a backslash. */
  lemma {:induction false} PipesEscaped(s: string, i: nat)
    requires i < |EscapePipes(s)| && EscapePipes(s)[i] == '|'
    ensures i > 0 && EscapePipes(s)[i - 1] == '\\'
    decreases |s|
  {
    if s != [] {
      var t := EscapePipes(s[1..]);
      if StartsWith(s, "|") {
        assert EscapePipes(s) == "\\|" + t;
        if i >= 2 {
          PipesEscaped(s[1..], i - 2);
        }
      } else {
        assert EscapePipes(s) == [s[0]] + t;
        assert i > 0;
        if i == 1 {
          EscapedHead(s[1..]);
          assert false;
        }
        PipesEscaped(s[1..], i - 1);
      }
    }
  }

  /** An escaped text never starts with a bare `|`. */
  lemma EscapedHead(s: string)
    ensures EscapePipes(s) == [] || EscapePipes(s)[0] != '|'
  {
    if s != [] && StartsWith(s, "|") {
      assert EscapePipes(s) == "\\|" + EscapePipes(s[1..]);
    }
  }

  /** Escaping empties only the empty description. */
  lemma EscapeEmpty(s: string)
    ensures EscapePipes(s) == [] <==> s == []
  {
    if s != [] && StartsWith(s, "|") {
      assert EscapePipes(s) == "\\|" + EscapePipes(s[1..]);
    }
  }

  /** Escaping loses nothing: the backslashes it adds can be taken out again. */
  lemma {:induction false} UnescapeEscape(s: string)
    ensures UnescapePipes(EscapePipes(s)) == s
    decreases |s|
  {
    if s != [] {
      var t := EscapePipes(s[1..]);
      UnescapeEscape(s[1..]);
      if StartsWith(s, "|") {
        var e := "\\|" + t;
        assert EscapePipes(s) == e;
        assert StartsWith(e, "\\|");
        assert e[2..] == t;
        assert [s[0]] + s[1..] == s;
      } else {
        var e := [s[0]] + t;
        assert EscapePipes(s) == e;
        EscapedHead(s[1..]);
        assert !StartsWith(e, "\\|") by {
          if |e| >= 2 {
            assert e[1] == t[0];
          }
        }
        assert e[1..] == t;
        assert [s[0]] + s[1..] == s;
      }
    }
  }

  /** The description cell: the placeholder exactly for an empty description,
      otherwise the escaped text. */
  lemma DescCellCases(description: string)
    ensures description == [] ==> DescCell(description) == NoDescription
    ensures description != [] ==> DescCell(description) == EscapePipes(description)
  {
    EscapeEmpty(description);
  }

  // ---------------------------------------------------------------------
  // collect_platforms

  datatype Platform = Platform(id: string, displayName: string, contextLoader: string, skillsPath: string)

  const HeaderPrefix := "| ID "
  const SeparatorPrefix := "|----"

  /** A line the loop looks at: a table line that is neither the header nor
      the separator. */
  predicate IsTableLine(line: string)
  {
    StartsWith(line, "|") && !StartsWith(line, HeaderPrefix) && !StartsWith(line, SeparatorPrefix)
  }

  /** The trimmed cells between the outer pipes. */
  function Cells(line: string): seq<string>
  {
    StripAll(Split(StripChars(line, {'|'}), "|"))
  }

  function RowOf(cells: seq<string>): (r: Option<Platform>)
    ensures r.Some? <==> |cells| == 4 && cells[0] != []
    ensures r.Some? ==> r.value == Platform(cells[0], cells[1], cells[2], cells[3])
  {
    if |cells| != 4 || cells[0] == [] then None
    else Some(Platform(cells[0], cells[1], cells[2], cells[3]))
  }

  /** The platform a registry line describes, if any. */
  function PlatformOf(line: string): (r: Option<Platform>)
    ensures r.Some? ==> IsTableLine(line) && r.value.id != []
  {
    if IsTableLine(line) then RowOf(Cells(line)) else None
  }

  predicate IsPlatformLine(line: string)
  {
    PlatformOf(line).Some?
  }

  /** The rows `collect_platforms` returns for the registry's lines. */
  function Platforms(lines: seq<string>): (r: seq<Platform>)
    ensures |r| == CountIf(lines, IsPlatformLine)
    ensures forall k :: 0 <= k < |r| ==> r[k].id != []
    decreases |lines|
  {
    if lines == [] then []
    else
      var last := lines[|lines| - 1];
      Platforms(lines[..|lines| - 1]) + (match PlatformOf(last) case Some(p) => [p] case None => [])
  }

  /** `collect_platforms` on the registry's text. */
  method CollectPlatforms(registry: string) returns (rows: seq<Platform>)
    ensures rows == Platforms(Lines(registry))
  {
    var lines := Lines(registry);
    rows := [];
    for k := 0 to |lines|
      invariant rows == Platforms(lines[..k])
    {
      assert lines[..k + 1][..k] == lines[..k];
      var line := lines[k];
      if !StartsWith(line, "|") {
        continue;
      }
      if StartsWith(line, HeaderPrefix) || StartsWith(line, SeparatorPrefix) {
        continue;
      }
      var parts := Cells(line);
      if |parts| != 4 {
        continue;
      }
      if parts[0] == [] {
        continue;
      }
      rows := rows + [Platform(parts[0], parts[1], parts[2], parts[3])];
    }
    assert lines[..|lines|] == lines;
  }

  /** A cell as written in a Markdown table: no pipe and no edge spaces. */
  predicate IsCell(x: string)
  {
    '|' !in x && (x == [] || (!IsSpace(x[0]) && !IsSpace(x[|x| - 1])))
  }

  function Pad(x: string): string
  {
    " " + x + " "
  }

  /** The line of a four-column table row. */
  function RowLine(a: string, b: string, c: string, d: string): string
  {
    "|" + RowCells(a, b, c, d) + "|"
  }

  /** What lies between the outer pipes of a row. */
  function RowCells(a: string, b: string, c: string, d: string): string
  {
    Pad(a) + "|" + (Pad(b) + "|" + (Pad(c) + "|" + Pad(d)))
  }

  lemma StripPad(x: string)
    requires IsCell(x)
    ensures Strip(Pad(x)) == x
  {
    var p := Pad(x);
    assert p[1..] == x + " ";
    assert (x + " ")[..|x|] == x;
    StripNoEdgeSpace(x);
  }

  /** Splitting four parts that do not contain the separator character. */
  lemma SplitFour(p: string, q: string, r: string, t: string, c: char)
    requires c !in p && c !in q && c !in r && c !in t
    ensures Split(p + [c] + (q + [c] + (r + [c] + t)), [c]) == [p, q, r, t]
  {
    ContainsChar(t, c);
    SplitAbsent(t, [c]);
    SplitOneMore(r, t, c, [t]);
    SplitOneMore(q, r + [c] + t, c, [r, t]);
    SplitOneMore(p, q + [c] + (r + [c] + t), c, [q, r, t]);
  }

  /** The cells of a row written in the usual way. */
  lemma CellsOfRow(a: string, b: string, c: string, d: string)
    requires IsCell(a) && IsCell(b) && IsCell(c) && IsCell(d)
    ensures Cells(RowLine(a, b, c, d)) == [a, b, c, d]
  {
    var pa, pb, pc, pd := Pad(a), Pad(b), Pad(c), Pad(d);
    var line := RowLine(a, b, c, d);
    assert Split(StripChars(line, {'|'}), "|") == [pa, pb, pc, pd] by {
      OuterPipes(a, b, c, d);
      InnerSplit(a, b, c, d);
    }
    StripPad(a);
    StripPad(b);
    StripPad(c);
    StripPad(d);
    StripAllFour(pa, pb, pc, pd);
  }

  /** Stripping the outer pipes of a row leaves its cells. */
  lemma OuterPipes(a: string, b: string, c: string, d: string)
    ensures StripChars(RowLine(a, b, c, d), {'|'}) == RowCells(a, b, c, d)
  {
    var inner := RowCells(a, b, c, d);
    assert RowLine(a, b, c, d) == ['|'] + inner + ['|'];
    assert inner[0] == ' ' && inner[|inner| - 1] == ' ';
    StripWrapped(inner, '|');
  }

  /** The cells split at the inner pipes. */
  lemma InnerSplit(a: string, b: string, c: string, d: string)
    requires IsCell(a) && IsCell(b) && IsCell(c) && IsCell(d)
    ensures Split(RowCells(a, b, c, d), "|") == [Pad(a), Pad(b), Pad(c), Pad(d)]
  {
    var pa, pb, pc, pd := Pad(a), Pad(b), Pad(c), Pad(d);
    PadNoPipe(a);
    PadNoPipe(b);
    PadNoPipe(c);
    PadNoPipe(d);
    SplitFour(pa, pb, pc, pd, '|');
  }

  lemma PadNoPipe(x: string)
    requires IsCell(x)
    ensures '|' !in Pad(x)
  {
  }

  lemma StripAllFour(p: string, q: string, r: string, t: string)
    ensures StripAll([p, q, r, t]) == [Strip(p), Strip(q), Strip(r), Strip(t)]
  {
  }

  /** A row line is a table line unless it is the header. */
  lemma RowIsTableLine(a: string, b: string, c: string, d: string)
    requires !StartsWith(RowLine(a, b, c, d), HeaderPrefix)
    ensures IsTableLine(RowLine(a, b, c, d))
  {
    var line := RowLine(a, b, c, d);
    assert line[..1] == "|";
    assert line[1] == ' ';
    if |line| >= 5 {
      assert line[..5][1] == ' ';
    }
  }

  /** A registry row written in the usual way is read back cell for cell. */
  lemma PlatformRowRoundTrip(a: string, b: string, c: string, d: string)
    requires IsCell(a) && IsCell(b) && IsCell(c) && IsCell(d) && a != []
    requires !StartsWith(RowLine(a, b, c, d), HeaderPrefix)
    ensures PlatformOf(RowLine(a, b, c, d)) == Some(Platform(a, b, c, d))
  {
    CellsOfRow(a, b, c, d);
    RowIsTableLine(a, b, c, d);
  }
}
