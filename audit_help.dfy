// Subcommand names read from the `--help` output of a skill script: names
// in `{a,b,c}` groups before the subcommand header, and the identifiers that
// start the lines listed under that header.
module AuditHelp {
  import opened Wrappers
  import opened Text
  import opened Seqs
  import opened AuditSanitize

  /** How many lines after the header the listing is searched (the header included). */
  const HeaderWindow: nat := 30

  /** A line that announces the subcommand list. */
  predicate IsHelpHeader(line: string)
  {
    Contains(Lower(line), "subcommands:") || Contains(Lower(line), "positional arguments:")
  }

  /** The end of the run of `[a-zA-Z0-9_-]` characters starting at `i`. */
  function IdentEnd(s: string, i: nat): (n: nat)
    requires i <= |s|
    ensures i <= n <= |s| && (n < |s| ==> !IsIdChar(s[n]))
    ensures forall k :: i <= k < n ==> IsIdChar(s[k])
    decreases |s| - i
  {
    if i < |s| && IsIdChar(s[i]) then IdentEnd(s, i + 1) else i
  }

  /** The stripped row matches `^[a-zA-Z][a-zA-Z0-9_-]*\s` or `^[a-zA-Z][a-zA-Z0-9_-]*$`. */
  predicate IsNameRow(sub: string)
  {
    sub != [] && IsAsciiLetter(sub[0]) && (IdentEnd(sub, 0) == |sub| || IsSpace(sub[IdentEnd(sub, 0)]))
  }

  /** A name the parser can report: non-empty, trimmed, without `,` or `}`. */
  predicate IsListedName(n: string)
  {
    n != [] && !IsSpace(n[0]) && !IsSpace(n[|n| - 1]) && ',' !in n && '}' !in n
  }

  /** The first word of a name row, which is its leading identifier. */
  function RowName(sub: string): (name: string)
    requires IsNameRow(sub)
    ensures name == sub[..IdentEnd(sub, 0)]
    ensures IsAsciiLetter(name[0]) && IsListedName(name)
    ensures forall k :: 0 <= k < |name| ==> IsIdChar(name[k])
  {
    var n := IdentEnd(sub, 0);
    assert IsIdChar(sub[0]);
    WordsFirst(sub, n);
    Words(sub)[0]
  }

  /** What one listed row contributes. */
  function RowNames(row: string): (r: seq<string>)
    ensures |r| <= 1 && forall k :: 0 <= k < |r| ==> IsListedName(r[k])
    ensures |r| == 1 ==> IsNameRow(Strip(row)) && r[0] == RowName(Strip(row))
  {
    var sub := Strip(row);
    if sub == [] || StartsWith(sub, "-") || StartsWith(sub, "{") then []
    else if IsNameRow(sub) then [RowName(sub)]
    else []
  }

  function RowsNames(rows: seq<string>): (r: seq<string>)
    ensures forall k :: 0 <= k < |r| ==> IsListedName(r[k])
    decreases |rows|
  {
    if rows == [] then [] else RowsNames(rows[..|rows| - 1]) + RowNames(rows[|rows| - 1])
  }

  /** The rows searched after a header at `h`: at most 29 of them. */
  function HeaderRows(lines: seq<string>, h: nat): (rows: seq<string>)
    requires h < |lines|
    ensures |rows| < HeaderWindow
    ensures rows == lines[h + 1..if h + HeaderWindow < |lines| then h + HeaderWindow else |lines|]
  {
    lines[h + 1..if h + HeaderWindow < |lines| then h + HeaderWindow else |lines|]
  }

  // ---------------------------------------------------------------------
  // `\{([^}]+)\}`

  /** The first brace group at or after `p` with a non-empty body, as
      `re.search` finds it. */
  function BraceGroupFrom(line: string, p: nat): (r: Option<string>)
    requires p <= |line|
    ensures r.Some? ==> r.value != [] && '}' !in r.value && Contains(line, "{" + r.value + "}")
    decreases |line| - p
  {
    if p == |line| then None
    else if line[p] == '{' then
      match IndexOfChar(line[p + 1..], '}')
      case None => None
      case Some(q) =>
        if q == 0 then BraceGroupFrom(line, p + 1)
        else
          var g := line[p + 1..p + 1 + q];
          assert g == line[p + 1..][..q];
          assert line[p..p + q + 2] == "{" + g + "}";
          assert OccursAt(line, "{" + g + "}", p);
          Some(g)
    else BraceGroupFrom(line, p + 1)
  }

  /** Without a closing brace after the first opening one there is no group. */
  lemma {:induction false} NoCloseNoGroup(line: string, p: nat)
    requires p <= |line| && '}' !in line[p..]
    ensures BraceGroupFrom(line, p).None?
    decreases |line| - p
  {
    if p < |line| {
      assert line[p + 1..] == line[p..][1..];
      if line[p] == '{' {
        assert '}' !in line[p + 1..];
      } else {
        NoCloseNoGroup(line, p + 1);
      }
    }
  }

  /** The stripped, non-empty parts of a comma-separated group. */
  function PartNames(parts: seq<string>): (r: seq<string>)
    ensures forall k :: 0 <= k < |r| ==> r[k] != [] && !IsSpace(r[k][0]) && !IsSpace(r[k][|r[k]| - 1])
    ensures forall k :: 0 <= k < |r| ==> exists j :: 0 <= j < |parts| && Strip(parts[j]) == r[k]
    decreases |parts|
  {
    if parts == [] then []
    else
      var init := parts[..|parts| - 1];
      var name := Strip(parts[|parts| - 1]);
      var r := PartNames(init);
      assert forall k :: 0 <= k < |r| ==> exists j :: 0 <= j < |init| && Strip(parts[j]) == r[k] by {
        assert forall j :: 0 <= j < |init| ==> init[j] == parts[j];
      }
      r + (if name != [] then [name] else [])
  }

  /** A stripped part of a split group holds neither the separator nor a brace
      the group does not hold. */
  lemma PartStripped(g: string, j: nat)
    requires j < |Split(g, ",")| && '}' !in g
    ensures ',' !in Strip(Split(g, ",")[j]) && '}' !in Strip(Split(g, ",")[j])
  {
    var part := Split(g, ",")[j];
    assert ',' !in part by {
      SplitPartsFree(g, ",");
      ContainsChar(part, ',');
    }
    assert '}' !in part by {
      forall i | 0 <= i < |part| ensures part[i] != '}' {
        SplitPartChars(g, ",", j, i);
      }
    }
    StripKeepsAbsent(part, ',');
    StripKeepsAbsent(part, '}');
  }

  /** The names of the first brace group of a line. */
  function BraceNames(line: string): (r: seq<string>)
    ensures forall k :: 0 <= k < |r| ==> IsListedName(r[k])
  {
    match BraceGroupFrom(line, 0)
    case None => []
    case Some(g) =>
      var parts := Split(g, ",");
      var r := PartNames(parts);
      forall k | 0 <= k < |r| ensures IsListedName(r[k]) {
        var j :| 0 <= j < |parts| && Strip(parts[j]) == r[k];
        PartStripped(g, j);
      }
      r
  }

  /** The names in the order the parser meets them, repetitions included,
      from line `i` on. */
  function CandidatesFrom(lines: seq<string>, i: nat): (r: seq<string>)
    requires i <= |lines|
    ensures forall k :: 0 <= k < |r| ==> IsListedName(r[k])
    decreases |lines| - i
  {
    if i == |lines| then []
    else if Strip(lines[i]) == [] then CandidatesFrom(lines, i + 1)
    else if IsHelpHeader(lines[i]) then RowsNames(HeaderRows(lines, i))
    else BraceNames(lines[i]) + CandidatesFrom(lines, i + 1)
  }

  /** The subcommands of a `--help` text: each candidate name once, in the
      order of first appearance. */
  function Subcommands(help: string): (r: seq<string>)
    ensures NoDup(r)
    ensures forall k :: 0 <= k < |r| ==> IsListedName(r[k])
    ensures forall k :: 0 <= k < |r| ==> r[k] in CandidatesFrom(Split(help, "\n"), 0)
    ensures forall c :: c in CandidatesFrom(Split(help, "\n"), 0) ==> c in r
  {
    var c := CandidatesFrom(Split(help, "\n"), 0);
    var r := Dedup(c);
    assert forall k :: 0 <= k < |r| ==> r[k] in c;
    r
  }

  /** A header line stops the brace search: no line after the window matters. */
  lemma HeaderEndsSearch(lines: seq<string>, i: nat)
    requires i < |lines| && Strip(lines[i]) != [] && IsHelpHeader(lines[i])
    ensures CandidatesFrom(lines, i) == RowsNames(HeaderRows(lines, i))
  {
  }

  /** A text without a line break has no header rows to read: only its brace
      group counts. */
  lemma SingleLineHelp(help: string)
    requires '\n' !in help && !IsHelpHeader(help) && Strip(help) != []
    ensures Subcommands(help) == Dedup(BraceNames(help))
  {
    ContainsChar(help, '\n');
    SplitAbsent(help, "\n");
    var lines := [help];
    assert CandidatesFrom(lines, 1) == [];
    assert CandidatesFrom(lines, 0) == BraceNames(help) + CandidatesFrom(lines, 1);
    assert BraceNames(help) + [] == BraceNames(help);
    assert Subcommands(help) == Dedup(CandidatesFrom(lines, 0));
  }

  // ---------------------------------------------------------------------
  // The parsing loop

  lemma RowsNamesSnoc(rows: seq<string>, row: string)
    ensures RowsNames(rows + [row]) == RowsNames(rows) + RowNames(row)
  {
    assert (rows + [row])[..|rows|] == rows;
  }

  lemma PartNamesSnoc(parts: seq<string>, part: string)
    ensures PartNames(parts + [part]) == PartNames(parts) + (if Strip(part) != [] then [Strip(part)] else [])
  {
    assert (parts + [part])[..|parts|] == parts;
  }

  /** Adding at most one element is `AddNew` or nothing. */
  lemma AddAllOne(acc: seq<string>, xs: seq<string>)
    requires |xs| <= 1
    ensures xs == [] ==> AddAll(acc, xs) == acc
    ensures |xs| == 1 ==> AddAll(acc, xs) == AddNew(acc, xs[0])
  {
    if |xs| == 1 {
      assert xs[..0] == [];
    }
  }

  /** What the loop body does with one row: skip it, or add its name once. */
  lemma RowStep(subs: seq<string>, row: string)
    ensures var sub := Strip(row);
      AddAll(subs, RowNames(row)) ==
        if sub == [] || StartsWith(sub, "-") || StartsWith(sub, "{") || !IsNameRow(sub) then subs
        else AddNew(subs, RowName(sub))
  {
    AddAllOne(subs, RowNames(row));
  }

  /** Names listed under a header, added one row at a time. */
  method AddHeaderRows(lines: seq<string>, h: nat, subs0: seq<string>) returns (subs: seq<string>)
    requires h < |lines|
    ensures subs == AddAll(subs0, RowsNames(HeaderRows(lines, h)))
  {
    subs := subs0;
    var rows := HeaderRows(lines, h);
    var k := 0;
    while k < |rows|
      invariant 0 <= k <= |rows|
      invariant subs == AddAll(subs0, RowsNames(rows[..k]))
    {
      var row := rows[k];
      assert rows[..k + 1] == rows[..k] + [row];
      RowsNamesSnoc(rows[..k], row);
      AddAllAppend(subs0, RowsNames(rows[..k]), RowNames(row));
      RowStep(subs, row);
      k := k + 1;
      var sub := Strip(row);
      if sub == [] || StartsWith(sub, "-") || StartsWith(sub, "{") {
        continue;
      }
      if IsNameRow(sub) {
        var name := RowName(sub);
        if name != [] && name !in subs {
          subs := subs + [name];
        }
      }
    }
    assert rows[..k] == rows;
  }

  /** Names of a comma-separated group, added one part at a time. */
  method AddParts(parts: seq<string>, subs0: seq<string>) returns (subs: seq<string>)
    ensures subs == AddAll(subs0, PartNames(parts))
  {
    subs := subs0;
    var k := 0;
    while k < |parts|
      invariant 0 <= k <= |parts|
      invariant subs == AddAll(subs0, PartNames(parts[..k]))
    {
      var part := parts[k];
      assert parts[..k + 1] == parts[..k] + [part];
      PartNamesSnoc(parts[..k], part);
      var one := if Strip(part) != [] then [Strip(part)] else [];
      AddAllAppend(subs0, PartNames(parts[..k]), one);
      AddAllOne(subs, one);
      var name := Strip(part);
      if name != [] && name !in subs {
        subs := subs + [name];
      }
      k := k + 1;
    }
    assert parts[..k] == parts;
  }

  /** The parser of the audit: a scan over the lines that stops at the header. */
  method ParseSubcommands(help: string) returns (subs: seq<string>)
    ensures subs == Subcommands(help)
  {
    var lines := Split(help, "\n");
    subs := [];
    AddAllIsDedup([], CandidatesFrom(lines, 0));
    assert [] + CandidatesFrom(lines, 0) == CandidatesFrom(lines, 0);
    var i := 0;
    while i < |lines|
      invariant 0 <= i <= |lines|
      invariant AddAll(subs, CandidatesFrom(lines, i)) == Subcommands(help)
    {
      var line := lines[i];
      if Strip(line) == [] {
        i := i + 1;
        continue;
      }
      if IsHelpHeader(line) {
        subs := AddHeaderRows(lines, i, subs);
        return;
      }
      var m := BraceGroupFrom(line, 0);
      var before := subs;
      if m.Some? {
        subs := AddParts(Split(m.value, ","), subs);
      }
      AddAllAppend(before, BraceNames(line), CandidatesFrom(lines, i + 1));
      i := i + 1;
    }
  }
}
