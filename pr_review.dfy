// The pure core of the pull-request reviewer: argument sanitising, grouping
// of changed files by kind, the diff scan that turns added lines into findings,
// the test-coverage heuristic, the verdict, and the review-state record.
module PrReview {
  import opened Wrappers
  import opened Text
  import opened Seqs

  // ---------------------------------------------------------------------
  // _sanitize

  /** `_sanitize`: whitespace runs are collapsed first and the limit applies to
      the collapsed text; a value that is not a string is rejected. */
  function Sanitize(s: Json, maxLen: nat, name: string): (r: Result<string>)
    ensures r.Ok? <==> s.JStr? && |Collapse(s.s)| <= maxLen
    ensures r.Ok? ==> r.value == Collapse(s.s) && Collapsed(r.value) && |r.value| <= maxLen
    ensures r.Ok? && r.value != [] ==> !IsSpace(r.value[0]) && !IsSpace(r.value[|r.value| - 1])
  {
    if !s.JStr? then Err(name + ": expected string")
    else
      var c := Collapse(s.s);
      CollapseProperties(s.s);
      CollapsedStrip(c);
      if |Strip(c)| > maxLen then Err(name + ": length exceeds " + NatToStr(maxLen))
      else Ok(Strip(c))
  }

  /** Sanitising an accepted value again gives the same value. */
  lemma SanitizeIdempotent(s: Json, maxLen: nat, name: string)
    requires Sanitize(s, maxLen, name).Ok?
    ensures Sanitize(JStr(Sanitize(s, maxLen, name).value), maxLen, name) == Sanitize(s, maxLen, name)
  {
    CollapseIdempotent(s.s);
  }

  /** Whitespace does not count against the limit: blank text of any length
      is accepted as the empty string. */
  lemma BlankAccepted(s: string, maxLen: nat, name: string)
    requires AllSpace(s)
    ensures Sanitize(JStr(s), maxLen, name) == Ok("")
  {
    CollapseEmpty(s);
  }

  // ---------------------------------------------------------------------
  // categorize_files

  /** `f.rsplit(".", 1)[-1] if "." in f else ""`: the text after the last dot. */
  function Ext(f: string): (r: string)
    ensures '.' !in r
    ensures '.' !in f ==> r == []
  {
    match LastIndexOfChar(f, '.')
    case None => []
    case Some(k) => f[k + 1..]
  }

  /** The extension of a name ending in `.ext` is `ext`. */
  lemma {:induction false} ExtOfSuffix(stem: string, ext: string)
    requires '.' !in ext
    ensures Ext(stem + "." + ext) == ext
    decreases |ext|
  {
    var f := stem + "." + ext;
    if ext == [] {
      assert f[|f| - 1] == '.';
    } else {
      var init := ext[..|ext| - 1];
      assert f[..|f| - 1] == stem + "." + init;
      assert f[|f| - 1] == ext[|ext| - 1] != '.';
      ExtOfSuffix(stem, init);
      assert f[|stem| + 1..] == ext;
    }
  }

  /** The category of one non-empty path: the extension tests come first, then
      the Dockerfile test, then the `.github/` test. */
  function Category(f: string): (c: string)
    ensures c in {"go", "python", "frontend", "config", "docs", "sql", "docker", "ci", "other"}
  {
    var ext := Ext(f);
    if ext == "go" then "go"
    else if ext == "py" then "python"
    else if ext in {"ts", "tsx", "js", "jsx"} then "frontend"
    else if ext in {"yml", "yaml", "toml", "json", "env"} then "config"
    else if ext in {"md", "txt", "rst"} then "docs"
    else if ext == "sql" then "sql"
    else if Contains(f, "Dockerfile") || f == "docker-compose.yml" then "docker"
    else if StartsWith(f, ".github/") then "ci"
    else "other"
  }

  /** A YAML file is configuration wherever it lives, so workflow files under
      `.github/` never reach the `ci` category. */
  lemma YamlIsConfig(stem: string)
    ensures Category(stem + ".yml") == "config"
  {
    ExtOfSuffix(stem, "yml");
    assert stem + "." + "yml" == stem + ".yml";
  }

  /** `docker-compose.yml` is configuration too: its docker test is never reached. */
  lemma DockerComposeIsConfig()
    ensures Category("docker-compose" + ".yml") == "config"
  {
    YamlIsConfig("docker-compose");
  }

  /** The non-empty paths that `kind` puts in category `c`. */
  function InCategory(kind: string -> string, c: string): string -> bool
  {
    f => f != [] && kind(f) == c
  }

  /** The dict built by the loop of `categorize_files` over `files`, for any
      classification `kind` of paths. */
  function Categorized(files: seq<string>, kind: string -> string): map<string, seq<string>>
    decreases |files|
  {
    if files == [] then map[]
    else
      var m := Categorized(files[..|files| - 1], kind);
      var f := files[|files| - 1];
      if f == [] then m
      else
        var c := kind(f);
        m[c := (if c in m then m[c] else []) + [f]]
  }

  /** Category `c` is a key exactly when it has paths, and its list is those
      paths in input order. */
  lemma {:induction false} CategorizedFilter(files: seq<string>, kind: string -> string, c: string)
    ensures c in Categorized(files, kind) ==> Categorized(files, kind)[c] == Filter(files, InCategory(kind, c))
    ensures c in Categorized(files, kind) <==> Filter(files, InCategory(kind, c)) != []
    decreases |files|
  {
    if files != [] {
      var init, f := files[..|files| - 1], files[|files| - 1];
      var p := InCategory(kind, c);
      CategorizedFilter(init, kind, c);
      var m := Categorized(init, kind);
      assert Filter(files, p) == Filter(init, p) + (if p(f) then [f] else []);
      if p(f) {
        assert Categorized(files, kind)[c] == (if c in m then m[c] else []) + [f];
      } else if f != [] {
        assert Categorized(files, kind) == m[kind(f) := (if kind(f) in m then m[kind(f)] else []) + [f]];
        assert kind(f) != c;
      }
    }
  }

  /** Category `c` is a key exactly when some non-empty path belongs to it, and
      its list is those paths in input order. */
  lemma CategorizedIs(files: seq<string>, kind: string -> string, c: string)
    ensures c in Categorized(files, kind) <==> exists i :: 0 <= i < |files| && InCategory(kind, c)(files[i])
    ensures c in Categorized(files, kind) ==> Categorized(files, kind)[c] == Filter(files, InCategory(kind, c))
  {
    var p := InCategory(kind, c);
    CategorizedFilter(files, kind, c);
    if exists i :: 0 <= i < |files| && p(files[i]) {
      var i :| 0 <= i < |files| && p(files[i]);
      FilterComplete(files, p, i);
    }
    var r := Filter(files, p);
    if r != [] {
      assert r[0] in files && p(r[0]);
    }
  }

  /** `categorize_files`: empty paths are dropped; each category present maps
      to its paths in input order, and only categories with a path are keys. */
  method CategorizeFiles(files: seq<string>) returns (cats: map<string, seq<string>>)
    ensures forall c :: c in cats <==> exists i :: 0 <= i < |files| && InCategory(Category, c)(files[i])
    ensures forall c :: c in cats ==> cats[c] == Filter(files, InCategory(Category, c))
  {
    cats := map[];
    for k := 0 to |files|
      invariant cats == Categorized(files[..k], Category)
    {
      var f := files[k];
      assert files[..k + 1][..k] == files[..k];
      if f != [] {
        var c := Category(f);
        var before := if c in cats then cats[c] else [];
        cats := cats[c := before + [f]];
      }
    }
    assert files[..|files|] == files;
    forall c
      ensures c in cats <==> exists i :: 0 <= i < |files| && InCategory(Category, c)(files[i])
      ensures c in cats ==> cats[c] == Filter(files, InCategory(Category, c))
    {
      CategorizedIs(files, Category, c);
    }
  }

  /** Every non-empty path is filed under its own category and under no other. */
  lemma CategoriesPartition(files: seq<string>, kind: string -> string, i: nat)
    requires i < |files| && files[i] != []
    ensures kind(files[i]) in Categorized(files, kind)
    ensures files[i] in Categorized(files, kind)[kind(files[i])]
    ensures forall c :: c in Categorized(files, kind) && files[i] in Categorized(files, kind)[c] ==> c == kind(files[i])
  {
    var c := kind(files[i]);
    CategorizedIs(files, kind, c);
    assert InCategory(kind, c)(files[i]);
    FilterComplete(files, InCategory(kind, c), i);
    forall d | d in Categorized(files, kind) && files[i] in Categorized(files, kind)[d]
      ensures d == c
    {
      CategorizedIs(files, kind, d);
    }
  }

  // ---------------------------------------------------------------------
  // analyze_diff

  /** One entry of the pattern lists: a regular expression, the category of
      what it finds and the message reported. */
  datatype Pattern = Pattern(regex: string, category: string, message: string)

  datatype PatternTables = PatternTables(secret: seq<Pattern>, go: seq<Pattern>, python: seq<Pattern>,
                                         js: seq<Pattern>, general: seq<Pattern>)

  /** SECRET_PATTERNS, GO_PATTERNS, PYTHON_PATTERNS, JS_PATTERNS and GENERAL_PATTERNS. */
  const SourcePatterns := PatternTables(
    [Pattern(@"(?i)(password|passwd|secret|api[_-]?key|token|auth)\s*[:=]\s*[\""'][^\""']{8,}[\""']", "SECURITY", "Possible hardcoded credential/secret"),
     Pattern(@"(?i)AWS[_A-Z]*KEY\s*[:=]", "SECURITY", "Possible hardcoded AWS key"),
     Pattern(@"(?i)-----BEGIN\s+(RSA\s+)?PRIVATE\s+KEY", "SECURITY", "Private key in source code")],
    [Pattern(@"^\+.*,\s*_\s*:?=.*\(", "ERROR_HANDLING", "Discarded error return value (Go)"),
     Pattern(@"^\+.*\.Close\(\)\s*$", "ERROR_HANDLING", "Unchecked Close()"),
     Pattern(@"^\+.*panic\(", "RISK", "Direct panic() call"),
     Pattern(@"^\+.*fmt\.Print", "STYLE", "fmt.Print in production code"),
     Pattern(@"^\+.*os\.Exit\(", "RISK", "Direct os.Exit()")],
    [Pattern(@"^\+.*except\s*:", "ERROR_HANDLING", "Bare except clause"),
     Pattern(@"^\+.*except Exception:", "ERROR_HANDLING", "Broad except Exception"),
     Pattern(@"^\+.*print\(", "STYLE", "print() in production code"),
     Pattern(@"^\+.*# type: ignore", "TYPING", "Type ignore comment")],
    [Pattern(@"^\+.*console\.log\(", "STYLE", "console.log in production code"),
     Pattern(@"^\+.*debugger", "STYLE", "Debugger statement"),
     Pattern(@"^\+.*process\.exit\(", "RISK", "Direct process.exit()"),
     Pattern(@"^\+.*eval\(", "SECURITY", "eval() usage"),
     Pattern(@"^\+.*\bany\b", "TYPING", "TypeScript any type")],
    [Pattern(@"^\+.*TODO", "TODO", "TODO marker"),
     Pattern(@"^\+.*FIXME", "TODO", "FIXME marker"),
     Pattern(@"^\+.*HACK", "TODO", "HACK marker"),
     Pattern(@"^\+.*XXX", "TODO", "XXX marker"),
     Pattern(@"^\+.{200,}", "STYLE", "Very long line (>200 chars)")])

  datatype Finding = Finding(file: string, line: int, category: string, message: string, context: string)

  /** The scan state: the file of the last `+++ b/` header, the line counter
      and the findings so far. */
  datatype DiffState = DiffState(file: string, lineNum: int, findings: seq<Finding>)

  /** Length of the run of ASCII digits starting at `i`. */
  function DigitRun(s: string, i: nat): (n: nat)
    requires i <= |s|
    ensures i + n <= |s| && (forall j :: i <= j < i + n ==> IsAsciiDigit(s[j]))
    ensures i + n < |s| ==> !IsAsciiDigit(s[i + n])
    decreases |s| - i
  {
    if i < |s| && IsAsciiDigit(s[i]) then 1 + DigitRun(s, i + 1) else 0
  }

  /** Python `int` of a string of ASCII digits. */
  function DigitsValue(ds: string): nat
    requires forall j :: 0 <= j < |ds| ==> IsAsciiDigit(ds[j])
    decreases |ds|
  {
    if ds == [] then 0
    else
      var d := ds[|ds| - 1];
      assert IsAsciiDigit(d);
      DigitsValue(ds[..|ds| - 1]) * 10 + (d as int - '0' as int)
  }

  /** Reading back a rendered number gives the number. */
  lemma {:induction false} DigitsValueOfNatToStr(n: nat)
    ensures DigitsValue(NatToStr(n)) == n
  {
    if n >= 10 {
      var s := NatToStr(n);
      assert s[..|s| - 1] == NatToStr(n / 10);
      DigitsValueOfNatToStr(n / 10);
    }
  }

  /** `re.match(r"^@@ -\d+(?:,\d+)? \+(\d+)", line)`: the new-file start line of
      a hunk header, if the line is one. */
  function HunkStart(line: string): (r: Option<nat>)
    ensures r.Some? ==> StartsWith(line, "@@ -")
  {
    if !StartsWith(line, "@@ -") then None
    else
      var a := DigitRun(line, 4);
      if a == 0 then None else NewStartAt(line, SkipCount(line, 4 + a))
  }

  /** The optional `,\d+` after the old start line: the index after it. */
  function SkipCount(line: string, j: nat): (j2: nat)
    requires j <= |line|
    ensures j <= j2 <= |line|
  {
    if j < |line| && line[j] == ',' && DigitRun(line, j + 1) > 0 then j + 1 + DigitRun(line, j + 1) else j
  }

  /** ` +\d+` at index `j2`: the value of the digits. */
  function NewStartAt(line: string, j2: nat): Option<nat>
    requires j2 <= |line|
  {
    if !(j2 + 2 <= |line| && line[j2] == ' ' && line[j2 + 1] == '+') then None
    else
      var b := DigitRun(line, j2 + 2);
      if b == 0 then None else Some(DigitsValue(line[j2 + 2..j2 + 2 + b]))
  }

  /** A run of digits followed by a non-digit is measured exactly. */
  lemma {:induction false} DigitRunOf(s: string, i: nat, n: nat)
    requires i + n <= |s| && (forall j :: i <= j < i + n ==> IsAsciiDigit(s[j]))
    requires i + n < |s| ==> !IsAsciiDigit(s[i + n])
    ensures DigitRun(s, i) == n
    decreases n
  {
    if n > 0 {
      DigitRunOf(s, i + 1, n - 1);
    }
  }

  predicate AllDigits(ds: string)
  {
    forall j :: 0 <= j < |ds| ==> IsAsciiDigit(ds[j])
  }

  /** The digit run at `i` is `ds` when `ds` sits there and no digit follows. */
  lemma DigitRunSlice(s: string, i: nat, ds: string)
    requires i + |ds| <= |s| && s[i..i + |ds|] == ds && AllDigits(ds)
    requires i + |ds| < |s| ==> !IsAsciiDigit(s[i + |ds|])
    ensures DigitRun(s, i) == |ds|
  {
    forall j | i <= j < i + |ds| ensures IsAsciiDigit(s[j]) {
      assert s[j] == ds[j - i];
    }
    DigitRunOf(s, i, |ds|);
  }

  /** A header `@@ -<oldStart>[,<count>] +<newStart>` followed by a non-digit
      yields the value of `<newStart>`. */
  lemma HunkStartOf(line: string, head: string, tail: string, oldStart: string, count: string,
                    newStart: string, rest: string)
    requires oldStart != [] && newStart != [] && AllDigits(oldStart) && AllDigits(count) && AllDigits(newStart)
    requires rest == [] || !IsAsciiDigit(rest[0])
    requires head == "@@ -" + oldStart + (if count == [] then [] else "," + count)
    requires tail == " +" + newStart + rest
    requires line == head + tail
    ensures HunkStart(line) == Some(DigitsValue(newStart))
  {
    HeadFacts(line, head, tail, oldStart, count);
    assert line[|head|..] == tail;
    NewStartOf(line, |head|, newStart, rest);
  }

  /** The part of a hunk header before ` +`. */
  lemma HeadFacts(line: string, head: string, tail: string, oldStart: string, count: string)
    requires oldStart != [] && AllDigits(oldStart) && AllDigits(count)
    requires head == "@@ -" + oldStart + (if count == [] then [] else "," + count)
    requires line == head + tail && tail != [] && tail[0] == ' '
    ensures StartsWith(line, "@@ -") && DigitRun(line, 4) == |oldStart|
    ensures SkipCount(line, 4 + |oldStart|) == |head|
  {
    var j := 4 + |oldStart|;
    assert line[..4] == head[..4] == "@@ -";
    assert line[4..j] == head[4..j] == oldStart;
    if count == [] {
      assert line[j] == tail[0];
      DigitRunSlice(line, 4, oldStart);
    } else {
      assert head[j..] == "," + count;
      CountFacts(line, head, tail, j, count);
      DigitRunSlice(line, 4, oldStart);
    }
  }

  /** The `,<count>` part of a hunk header, at index `j`. */
  lemma CountFacts(line: string, head: string, tail: string, j: nat, count: string)
    requires count != [] && AllDigits(count) && |head| == j + 1 + |count|
    requires head[j..] == "," + count
    requires line == head + tail && tail != [] && tail[0] == ' '
    ensures j < |line| && line[j] == ',' && DigitRun(line, j + 1) == |count|
  {
    assert line[j] == head[j] == ',';
    assert line[j + 1..j + 1 + |count|] == head[j + 1..] == count;
    assert line[|head|] == tail[0];
    DigitRunSlice(line, j + 1, count);
  }

  lemma NewStartOf(line: string, j2: nat, newStart: string, rest: string)
    requires newStart != [] && AllDigits(newStart) && (rest == [] || !IsAsciiDigit(rest[0]))
    requires j2 + 2 + |newStart| + |rest| == |line| && line[j2..] == " +" + newStart + rest
    ensures NewStartAt(line, j2) == Some(DigitsValue(newStart))
  {
    var tail := line[j2..];
    var n := |newStart|;
    assert line[j2] == ' ' && line[j2 + 1] == '+' by {
      PartsOfThree(" +", newStart, rest);
      assert line[j2] == tail[..2][0] && line[j2 + 1] == tail[..2][1];
    }
    assert line[j2 + 2..j2 + 2 + n] == newStart by {
      PartsOfThree(" +", newStart, rest);
      SliceOfSlice(line, j2, 2, 2 + n);
    }
    assert DigitRun(line, j2 + 2) == n by {
      if rest != [] {
        PartsOfThree(" +", newStart, rest);
        assert line[j2 + 2 + n] == tail[2 + n..][0];
      }
      DigitRunSlice(line, j2 + 2, newStart);
    }
    NewStartAtOf(line, j2, n);
  }

  lemma NewStartAtOf(line: string, j2: nat, n: nat)
    requires j2 + 2 + n <= |line| && line[j2] == ' ' && line[j2 + 1] == '+'
    requires n > 0 && DigitRun(line, j2 + 2) == n
    ensures NewStartAt(line, j2) == Some(DigitsValue(line[j2 + 2..j2 + 2 + n]))
  {
  }

  /** The header of a hunk starting at line `a` (with `b` lines, when given)
      of the old file and line `c` of the new one. */
  function HunkHeaderText(a: nat, b: Option<nat>, c: nat): string
  {
    HunkHead(a, b) + " +" + NatToStr(c)
  }

  function HunkHead(a: nat, b: Option<nat>): string
  {
    "@@ -" + NatToStr(a) + (if b.Some? then "," + NatToStr(b.value) else [])
  }

  /** In particular a rendered header gives back the new-file start line,
      whatever follows it (a further digit aside). */
  lemma HunkHeaderStart(a: nat, b: Option<nat>, c: nat, rest: string)
    requires rest == [] || !IsAsciiDigit(rest[0])
    ensures HunkStart(HunkHeaderText(a, b, c) + rest) == Some(c)
  {
    var count := if b.Some? then NatToStr(b.value) else [];
    var head := HunkHead(a, b);
    assert head == "@@ -" + NatToStr(a) + (if count == [] then [] else "," + count);
    var tail := " +" + NatToStr(c) + rest;
    AppendAssoc(head + " +", NatToStr(c), rest);
    AppendAssoc(head, " +", NatToStr(c));
    AppendAssoc(head, " +" + NatToStr(c), rest);
    assert HunkHeaderText(a, b, c) + rest == head + tail;
    HunkStartOf(head + tail, head, tail, NatToStr(a), count, NatToStr(c), rest);
    DigitsValueOfNatToStr(c);
  }

  /** An added line: starts with `+` but is not a `+++` header. */
  predicate IsAdded(line: string)
  {
    StartsWith(line, "+") && !StartsWith(line, "+++")
  }

  /** `current_file or "unknown"`. */
  function FileLabel(file: string): (r: string)
    ensures r != []
    ensures file != [] ==> r == file
  {
    if file == [] then "unknown" else file
  }

  /** `(line[1:].strip())[:120]`. */
  function Context(line: string): (r: string)
    ensures |r| <= 120
    ensures line != [] ==> r == Take(Strip(line[1..]), 120)
  {
    if line == [] then [] else Take(Strip(line[1..]), 120)
  }

  /** A JavaScript or TypeScript source file. */
  predicate IsScriptFile(file: string)
  {
    EndsWith(file, ".js") || EndsWith(file, ".jsx") || EndsWith(file, ".ts") || EndsWith(file, ".tsx")
  }

  /** The patterns applied to an added line of `file`: secrets and general ones
      always, plus the list for the file's language. */
  function ActivePatterns(file: string, t: PatternTables): (r: seq<Pattern>)
    ensures file == [] ==> r == t.secret + t.general
    ensures file != [] && EndsWith(file, ".go") ==> r == t.secret + t.general + t.go
    ensures file != [] && !EndsWith(file, ".go") && EndsWith(file, ".py") ==> r == t.secret + t.general + t.python
    ensures file != [] && !EndsWith(file, ".go") && !EndsWith(file, ".py") ==>
      r == t.secret + t.general + (if IsScriptFile(file) then t.js else [])
  {
    var lang :=
      if file == [] then []
      else if EndsWith(file, ".go") then t.go
      else if EndsWith(file, ".py") then t.python
      else if IsScriptFile(file) then t.js
      else [];
    t.secret + t.general + lang
  }

  /** `re.search(pat, line)` for each pattern, the regular-expression engine
      being the parameter `search`. */
  function Hits(search: (string, string) -> bool, line: string): Pattern -> bool
  {
    (p: Pattern) => search(p.regex, line)
  }

  /** One finding per pattern that matches the line, in pattern order. */
  function MatchFindings(pats: seq<Pattern>, file: string, n: int, line: string,
                         search: (string, string) -> bool): (r: seq<Finding>)
    ensures |r| == CountIf(pats, Hits(search, line))
    ensures forall k :: 0 <= k < |r| ==>
      r[k].file == FileLabel(file) && r[k].line == n && r[k].context == Context(line)
    ensures forall k :: 0 <= k < |r| ==>
      exists p :: p in pats && search(p.regex, line) && p.category == r[k].category && p.message == r[k].message
  {
    var hits := Filter(pats, Hits(search, line));
    assert forall k :: 0 <= k < |hits| ==> hits[k] in pats && Hits(search, line)(hits[k]);
    seq(|hits|, k requires 0 <= k < |hits| =>
      Finding(FileLabel(file), n, hits[k].category, hits[k].message, Context(line)))
  }

  /** How the loop of `analyze_diff` treats a line, tested in its order. */
  datatype LineKind = FileHeader(path: string) | HunkHeader(start: nat) | AddedLine | RemovedLine | OtherLine

  function Classify(line: string): (k: LineKind)
    ensures k.FileHeader? <==> StartsWith(line, "+++ b/")
    ensures k.FileHeader? ==> k.path == line[6..]
    ensures k.HunkHeader? <==> !StartsWith(line, "+++ b/") && HunkStart(line).Some?
    ensures k.HunkHeader? ==> k.start == HunkStart(line).value
    ensures k.AddedLine? <==> IsAdded(line)
    ensures k.RemovedLine? <==> StartsWith(line, "-")
  {
    if StartsWith(line, "+++ b/") then
      assert line[0] == "+++ b/"[0];
      FileHeader(line[6..])
    else match HunkStart(line)
      case Some(c) =>
        assert line[0] == "@@ -"[0];
        HunkHeader(c)
      case None =>
        if IsAdded(line) then AddedLine
        else if StartsWith(line, "-") then RemovedLine
        else OtherLine
  }

  /** The findings an added line contributes, read in scan state `st`: the
      counter has already advanced past the line. */
  function LineFindings(st: DiffState, line: string, t: PatternTables,
                        search: (string, string) -> bool): seq<Finding>
  {
    MatchFindings(ActivePatterns(st.file, t), st.file, st.lineNum + 1, line, search)
  }

  /** One line of the loop of `analyze_diff`: a `+++ b/` header sets the file,
      a hunk header resets the counter, an added line advances it and is
      matched against the patterns, a removed line changes nothing, and any
      other line advances the counter. */
  function Step(st: DiffState, line: string, k: LineKind, t: PatternTables,
                search: (string, string) -> bool): DiffState
  {
    match k
    case FileHeader(p) => st.(file := p)
    case HunkHeader(c) => st.(lineNum := c)
    case AddedLine => DiffState(st.file, st.lineNum + 1, st.findings + LineFindings(st, line, t, search))
    case RemovedLine => st
    case OtherLine => st.(lineNum := st.lineNum + 1)
  }

  /** The scan of `lines` from the initial state (no file, counter 0), for a
      classification `kind` of lines. */
  function Analyze(lines: seq<string>, kind: string -> LineKind, t: PatternTables,
                   search: (string, string) -> bool): DiffState
    decreases |lines|
  {
    if lines == [] then DiffState([], 0, [])
    else
      var last := lines[|lines| - 1];
      Step(Analyze(lines[..|lines| - 1], kind, t, search), last, kind(last), t, search)
  }

  /** `analyze_diff`: the findings of the scan of the diff's lines. */
  method AnalyzeDiff(diffText: string, t: PatternTables, search: (string, string) -> bool)
    returns (findings: seq<Finding>)
    ensures findings == Analyze(Split(diffText, "\n"), Classify, t, search).findings
  {
    var lines := Split(diffText, "\n");
    var file: string := [];
    var lineNum := 0;
    findings := [];
    for k := 0 to |lines|
      invariant DiffState(file, lineNum, findings) == Analyze(lines[..k], Classify, t, search)
    {
      var line := lines[k];
      AnalyzeStep(lines, k, t, search);
      match Classify(line)
      case FileHeader(p) =>
        file := p;
      case HunkHeader(c) =>
        lineNum := c;
      case AddedLine =>
        var found := MatchFindings(ActivePatterns(file, t), file, lineNum + 1, line, search);
        lineNum := lineNum + 1;
        findings := findings + found;
      case RemovedLine =>
      case OtherLine =>
        lineNum := lineNum + 1;
    }
    assert lines[..|lines|] == lines;
  }

  lemma AnalyzeStep(lines: seq<string>, k: nat, t: PatternTables, search: (string, string) -> bool)
    requires k < |lines|
    ensures Analyze(lines[..k + 1], Classify, t, search)
      == Step(Analyze(lines[..k], Classify, t, search), lines[k], Classify(lines[k]), t, search)
  {
    assert lines[..k + 1][..k] == lines[..k];
  }

  /** `analyze_diff` with the repository's own pattern lists. */
  method AnalyzeSourceDiff(diffText: string, search: (string, string) -> bool) returns (findings: seq<Finding>)
    ensures findings == Analyze(Split(diffText, "\n"), Classify, SourcePatterns, search).findings
  {
    findings := AnalyzeDiff(diffText, SourcePatterns, search);
  }

  /** The lines that move the counter on by one: added and other lines. */
  function Advances(kind: string -> LineKind): string -> bool
  {
    line => kind(line).AddedLine? || kind(line).OtherLine?
  }

  /** After the last hunk header the counter is its start line plus the number
      of added and other lines since; removed lines never count. */
  lemma {:induction false} CounterAfterHunk(lines: seq<string>, kind: string -> LineKind, t: PatternTables,
                                            search: (string, string) -> bool, h: nat)
    requires h < |lines| && kind(lines[h]).HunkHeader?
    requires forall j :: h < j < |lines| ==> !kind(lines[j]).HunkHeader?
    ensures Analyze(lines, kind, t, search).lineNum == kind(lines[h]).start + CountIf(lines[h + 1..], Advances(kind))
    decreases |lines|
  {
    var n := |lines| - 1;
    var init, last := lines[..n], lines[n];
    if h == n {
      assert lines[h + 1..] == [];
    } else {
      assert init[h] == lines[h];
      forall j | h < j < |init| ensures !kind(init[j]).HunkHeader? {
        assert init[j] == lines[j];
      }
      CounterAfterHunk(init, kind, t, search, h);
      var tail := lines[h + 1..];
      assert tail[..|tail| - 1] == init[h + 1..];
      assert tail[|tail| - 1] == last;
    }
  }

  /** Before any hunk header the counter counts the added and other lines. */
  lemma {:induction false} CounterBeforeHunk(lines: seq<string>, kind: string -> LineKind, t: PatternTables,
                                             search: (string, string) -> bool)
    requires forall j :: 0 <= j < |lines| ==> !kind(lines[j]).HunkHeader?
    ensures Analyze(lines, kind, t, search).lineNum == CountIf(lines, Advances(kind))
    decreases |lines|
  {
    if lines != [] {
      var init := lines[..|lines| - 1];
      forall j | 0 <= j < |init| ensures !kind(init[j]).HunkHeader? {
        assert init[j] == lines[j];
      }
      CounterBeforeHunk(init, kind, t, search);
    }
  }

  /** The file of the scan is the path of the last `+++ b/` header... */
  lemma {:induction false} FileAfterHeader(lines: seq<string>, kind: string -> LineKind, t: PatternTables,
                                           search: (string, string) -> bool, h: nat)
    requires h < |lines| && kind(lines[h]).FileHeader?
    requires forall j :: h < j < |lines| ==> !kind(lines[j]).FileHeader?
    ensures Analyze(lines, kind, t, search).file == kind(lines[h]).path
    decreases |lines|
  {
    var n := |lines| - 1;
    if h < n {
      var init := lines[..n];
      assert init[h] == lines[h];
      forall j | h < j < |init| ensures !kind(init[j]).FileHeader? {
        assert init[j] == lines[j];
      }
      FileAfterHeader(init, kind, t, search, h);
    }
  }

  /** ...and empty (reported as "unknown") when there is none. */
  lemma {:induction false} FileWithoutHeader(lines: seq<string>, kind: string -> LineKind, t: PatternTables,
                                             search: (string, string) -> bool)
    requires forall j :: 0 <= j < |lines| ==> !kind(lines[j]).FileHeader?
    ensures Analyze(lines, kind, t, search).file == []
    decreases |lines|
  {
    if lines != [] {
      var init := lines[..|lines| - 1];
      forall j | 0 <= j < |init| ensures !kind(init[j]).FileHeader? {
        assert init[j] == lines[j];
      }
      FileWithoutHeader(init, kind, t, search);
    }
  }

  /** Finding `f` was produced by added line `k`: its file, line number and
      context are those of the scan state just before that line. */
  predicate FromLine(lines: seq<string>, kind: string -> LineKind, t: PatternTables,
                     search: (string, string) -> bool, k: nat, f: Finding)
    requires k < |lines|
  {
    var st := Analyze(lines[..k], kind, t, search);
    kind(lines[k]).AddedLine? && f in LineFindings(st, lines[k], t, search) &&
    f.file == FileLabel(st.file) && f.line == st.lineNum + 1 && f.context == Context(lines[k])
  }

  /** Every finding comes from an added line, never from a header, a removed
      line or another line. */
  lemma {:induction false} FindingsFromAddedLines(lines: seq<string>, kind: string -> LineKind, t: PatternTables,
                                                  search: (string, string) -> bool, i: nat)
    requires i < |Analyze(lines, kind, t, search).findings|
    ensures exists k :: 0 <= k < |lines| && FromLine(lines, kind, t, search, k, Analyze(lines, kind, t, search).findings[i])
    decreases |lines|
  {
    var n := |lines| - 1;
    var init, last := lines[..n], lines[n];
    var before := Analyze(init, kind, t, search);
    var all := Analyze(lines, kind, t, search).findings;
    var f := all[i];
    if i < |before.findings| {
      assert all[..|before.findings|] == before.findings;
      FindingsFromAddedLines(init, kind, t, search, i);
      var k :| 0 <= k < |init| && FromLine(init, kind, t, search, k, before.findings[i]);
      assert lines[..k] == init[..k] && lines[k] == init[k];
      assert FromLine(lines, kind, t, search, k, f);
    } else {
      var added := LineFindings(before, last, t, search);
      assert kind(last).AddedLine? && all == before.findings + added;
      assert f == added[i - |before.findings|];
      assert lines[..n] == init;
      assert FromLine(lines, kind, t, search, n, f);
    }
  }

  // ---------------------------------------------------------------------
  // check_test_coverage

  /** `f.split("/")[-1]`: the text after the last slash. */
  function BaseName(f: string): (r: string)
    ensures '/' !in r
  {
    match LastIndexOfChar(f, '/')
    case None => f
    case Some(k) => f[k + 1..]
  }

  /** `"/".join(f.split("/")[:-1])`: the text before the last slash, or "". */
  function DirName(f: string): string
  {
    match LastIndexOfChar(f, '/')
    case None => []
    case Some(k) => f[..k]
  }

  /** `name.rsplit(".", 1)[0]`: the name without its last extension. */
  function Stem(name: string): string
  {
    match LastIndexOfChar(name, '.')
    case None => name
    case Some(k) => name[..k]
  }

  predicate IsTestPath(f: string)
  {
    EndsWith(f, "_test.go") || StartsWith(BaseName(f), "test_") || EndsWith(f, "_test.py") ||
    Contains(f, ".test.") || Contains(f, ".spec.")
  }

  predicate HasSourceExt(f: string)
  {
    EndsWith(f, ".go") || EndsWith(f, ".py") || EndsWith(f, ".ts") || EndsWith(f, ".tsx") ||
    EndsWith(f, ".js") || EndsWith(f, ".jsx")
  }

  /** A stripped entry that is a test file. */
  predicate IsTestEntry(f: string)
  {
    f != [] && IsTestPath(f)
  }

  /** A stripped entry that is a source file: a code extension and not a test. */
  predicate IsSourceEntry(f: string)
  {
    f != [] && !IsTestPath(f) && HasSourceExt(f)
  }

  /** Test file `t` counts for source file `s`: same directory, or the source's
      stem named in one of the four test spellings. */
  predicate Covers(t: string, s: string)
  {
    var stem := Stem(BaseName(s));
    DirName(t) == DirName(s) || Contains(t, "test_" + stem) || Contains(t, stem + "_test") ||
    Contains(t, stem + ".test") || Contains(t, stem + ".spec")
  }

  predicate HasTest(s: string, tests: seq<string>)
  {
    exists i :: 0 <= i < |tests| && Covers(tests[i], s)
  }

  const SkipKeywords: seq<string> := ["__init__", "main.go", "main.py", "config", "types", "models", "schema", "index.ts", "index.js"]

  /** Source files naming a skip keyword are never reported. */
  predicate Skipped(s: string)
  {
    exists k :: 0 <= k < |SkipKeywords| && Contains(s, SkipKeywords[k])
  }

  /** The source files reported: no matching test and no skip keyword. */
  function Lacks(tests: seq<string>): string -> bool
  {
    s => !HasTest(s, tests) && !Skipped(s)
  }

  function Stripped(files: seq<string>): (r: seq<string>)
    ensures |r| == |files| && forall i :: 0 <= i < |files| ==> r[i] == Strip(files[i])
  {
    seq(|files|, i requires 0 <= i < |files| => Strip(files[i]))
  }

  function TestsOf(files: seq<string>): seq<string>
  {
    Filter(Stripped(files), IsTestEntry)
  }

  function SourcesOf(files: seq<string>): seq<string>
  {
    Filter(Stripped(files), IsSourceEntry)
  }

  function MissingTests(files: seq<string>): seq<string>
  {
    Filter(SourcesOf(files), Lacks(TestsOf(files)))
  }

  const Adequate := "Test coverage looks" + " adequate for changed files."
  const MissingHeader := "Files without corresponding test changes:\n"

  function Bullets(missing: seq<string>): (r: seq<string>)
    ensures |r| == |missing| && forall i :: 0 <= i < |r| ==> r[i] == "  - " + missing[i]
  {
    seq(|missing|, i requires 0 <= i < |missing| => "  - " + missing[i])
  }

  /** The message for the list of files without tests. */
  function ReportFor(missing: seq<string>): (r: string)
    ensures r == Adequate <==> missing == []
  {
    if missing != [] then
      var r := MissingHeader + Join(Bullets(missing), "\n");
      assert r[0] == MissingHeader[0] == 'F';
      assert Adequate[0] == 'T';
      r
    else Adequate
  }

  /** The message `check_test_coverage` returns. */
  function CoverageReport(files: seq<string>): string
  {
    ReportFor(MissingTests(files))
  }

  /** The inner loop: is there a test for `s` among `tests`? */
  method HasMatchingTest(s: string, tests: seq<string>) returns (found: bool)
    ensures found <==> HasTest(s, tests)
  {
    found := false;
    var j := 0;
    while j < |tests|
      invariant 0 <= j <= |tests|
      invariant forall i :: 0 <= i < j ==> !Covers(tests[i], s)
    {
      if Covers(tests[j], s) {
        found := true;
        break;
      }
      j := j + 1;
    }
  }

  /** `check_test_coverage`. */
  method CheckTestCoverage(files: seq<string>) returns (report: string)
    ensures report == CoverageReport(files)
  {
    var stripped := Stripped(files);
    var src: seq<string> := [];
    var tests: seq<string> := [];
    for k := 0 to |files|
      invariant src == Filter(stripped[..k], IsSourceEntry)
      invariant tests == Filter(stripped[..k], IsTestEntry)
    {
      var f := Strip(files[k]);
      FilterPrefixStep(stripped, IsSourceEntry, k);
      FilterPrefixStep(stripped, IsTestEntry, k);
      if f != [] {
        if IsTestPath(f) {
          tests := tests + [f];
        } else if HasSourceExt(f) {
          src := src + [f];
        }
      }
    }
    assert stripped[..|files|] == stripped;
    var missing: seq<string> := [];
    for k := 0 to |src|
      invariant missing == Filter(src[..k], Lacks(tests))
    {
      var s := src[k];
      var hasTest := HasMatchingTest(s, tests);
      var skip := Skipped(s);
      FilterPrefixStep(src, Lacks(tests), k);
      if !hasTest && !skip {
        missing := missing + [s];
      }
    }
    assert src[..|src|] == src;
    report := ReportFor(missing);
  }

  /** The "adequate" message comes back exactly when every changed source file
      has a matching test change or names a skip keyword. */
  lemma CoverageAdequateIff(files: seq<string>)
    ensures CoverageReport(files) == Adequate <==>
      forall i :: 0 <= i < |SourcesOf(files)| ==> !Lacks(TestsOf(files))(SourcesOf(files)[i])
  {
    FilterEmptyIff(SourcesOf(files), Lacks(TestsOf(files)));
  }

  /** Every reported file is a changed source file without a matching test,
      and none of them names a skip keyword. */
  lemma ReportedFiles(files: seq<string>, i: nat)
    requires i < |MissingTests(files)|
    ensures MissingTests(files)[i] in SourcesOf(files)
    ensures !HasTest(MissingTests(files)[i], TestsOf(files)) && !Skipped(MissingTests(files)[i])
  {
    assert Lacks(TestsOf(files))(MissingTests(files)[i]);
  }

  // ---------------------------------------------------------------------
  // Verdict, review state and cmd_review

  datatype Verdict = SecurityConcerns | NeedsAttention | MinorStyle | LooksGood

  predicate IsSecurity(f: Finding) { f.category == "SECURITY" }
  predicate IsRisk(f: Finding) { f.category in {"ERROR_HANDLING", "RISK"} }
  predicate IsStyle(f: Finding) { f.category in {"STYLE", "TODO", "TYPING"} }

  predicate AnyFinding(findings: seq<Finding>, p: Finding -> bool)
  {
    exists i :: 0 <= i < |findings| && p(findings[i])
  }

  /** The summary verdict of `generate_report`, strongest concern first. */
  function ChooseVerdict(findings: seq<Finding>): (v: Verdict)
    ensures v == SecurityConcerns <==> AnyFinding(findings, IsSecurity)
    ensures v == NeedsAttention <==> !AnyFinding(findings, IsSecurity) && AnyFinding(findings, IsRisk)
    ensures v == MinorStyle <==>
      !AnyFinding(findings, IsSecurity) && !AnyFinding(findings, IsRisk) && AnyFinding(findings, IsStyle)
    ensures v == LooksGood <==>
      !AnyFinding(findings, IsSecurity) && !AnyFinding(findings, IsRisk) && !AnyFinding(findings, IsStyle)
  {
    FilterEmptyIff(findings, IsSecurity);
    FilterEmptyIff(findings, IsRisk);
    FilterEmptyIff(findings, IsStyle);
    var sec := Filter(findings, IsSecurity);
    var err := Filter(findings, IsRisk);
    var sty := Filter(findings, IsStyle);
    if sec != [] then SecurityConcerns
    else if err != [] then NeedsAttention
    else if sty != [] then MinorStyle
    else LooksGood
  }

  function Severity(v: Verdict): nat
  {
    match v
    case SecurityConcerns => 3
    case NeedsAttention => 2
    case MinorStyle => 1
    case LooksGood => 0
  }

  /** More findings never make the verdict milder. */
  lemma VerdictMonotone(a: seq<Finding>, b: seq<Finding>)
    ensures Severity(ChooseVerdict(a + b)) >= Severity(ChooseVerdict(a))
  {
    forall p: Finding -> bool | AnyFinding(a, p) ensures AnyFinding(a + b, p) {
      var i :| 0 <= i < |a| && p(a[i]);
      assert (a + b)[i] == a[i];
    }
  }

  function VerdictText(v: Verdict): string
  {
    match v
    case SecurityConcerns => "[FAIL] **SECURITY CONCERNS** — Review security findings before merging."
    case NeedsAttention => "[WARNING] **NEEDS ATTENTION** — Error handling / risk items to review."
    case MinorStyle => "[NOTE] **MINOR STYLE NOTES** — Looks good overall, minor suggestions above."
    case LooksGood => "[OK] **LOOKS GOOD** — No automated issues found. Ready for human review."
  }

  /** `view.get("headRefOid", "")`. */
  function HeadRefOid(view: map<string, Json>): Json
  {
    if "headRefOid" in view then view["headRefOid"] else JStr("")
  }

  /** The record `generate_report` stores for a written report. */
  function ReviewEntry(view: map<string, Json>, reviewedAt: int, reportPath: string): Json
  {
    JObj(map["head_sha" := HeadRefOid(view), "status" := JStr("reviewed"),
             "reviewed_at" := JInt(reviewedAt), "report" := JStr(reportPath)])
  }

  /** The state update of `generate_report`: only the entry under `str(pr_num)`
      changes, and it becomes a "reviewed" record. */
  function RecordReview(state: map<string, Json>, prNum: int, view: map<string, Json>,
                        reviewedAt: int, reportPath: string): (r: map<string, Json>)
    ensures r.Keys == state.Keys + {IntToStr(prNum)}
    ensures forall k :: k in state && k != IntToStr(prNum) ==> r[k] == state[k]
    ensures r[IntToStr(prNum)].JObj? && Get(r[IntToStr(prNum)].fields, "status") == JStr("reviewed")
  {
    var e := ReviewEntry(view, reviewedAt, reportPath);
    assert Get(e.fields, "status") == JStr("reviewed");
    state[IntToStr(prNum) := e]
  }

  /** `is_reviewed`, given the current head commit: the stored record has that
      head and status "reviewed". A stored value that is not an object makes
      the source raise. */
  function IsReviewed(state: map<string, Json>, prNum: int, headSha: string): Result<bool>
  {
    var key := IntToStr(prNum);
    var pr := if key in state then state[key] else JObj(map[]);
    if !pr.JObj? then Err("'" + key + "' entry is not an object")
    else Ok(Get(pr.fields, "head_sha") == JStr(headSha) && Get(pr.fields, "status") == JStr("reviewed"))
  }

  /** A recorded review counts as done for the head it was made at, and for no
      other head. */
  lemma RecordThenReviewed(state: map<string, Json>, prNum: int, view: map<string, Json>,
                           reviewedAt: int, reportPath: string, headSha: string)
    ensures IsReviewed(RecordReview(state, prNum, view, reviewedAt, reportPath), prNum, headSha)
      == Ok(HeadRefOid(view) == JStr(headSha))
  {
    var e := ReviewEntry(view, reviewedAt, reportPath);
    assert Get(e.fields, "head_sha") == HeadRefOid(view);
    assert Get(e.fields, "status") == JStr("reviewed");
  }

  /** Recording a review of one pull request leaves the status of every other
      one as it was. */
  lemma RecordKeepsOthers(state: map<string, Json>, prNum: int, view: map<string, Json>,
                          reviewedAt: int, reportPath: string, other: int, headSha: string)
    requires other != prNum
    ensures IsReviewed(RecordReview(state, prNum, view, reviewedAt, reportPath), other, headSha)
      == IsReviewed(state, other, headSha)
  {
    if IntToStr(other) == IntToStr(prNum) {
      IntToStrInjective(other, prNum);
    }
  }

  /** `if not view`: the view was fetched and is not the empty object (an
      empty `gh` output parses as `{}`). */
  predicate Loaded(view: Option<map<string, Json>>)
  {
    view.Some? && view.value != map[]
  }

  /** The fields `generate_report` reads before the report is assembled do not
      raise: `headRefOid[:8]` needs a string or list, and `(author or
      {}).get` needs a falsy author or an object. */
  predicate ViewReadable(view: map<string, Json>)
  {
    ("headRefOid" !in view || view["headRefOid"].JStr? || view["headRefOid"].JList?)
    && ("author" !in view || !Truthy(view["author"]) || view["author"].JObj?)
  }

  /** `cmd_review`: a number outside [1, 999999] gives exit code 2 and no
      report; otherwise a forced review whose state update happens only when
      the pull request could be loaded (`view`), with exit code 0 either way.
      A view field of the wrong type raises out of `cmd_review` (Err). */
  function CmdReview(state: map<string, Json>, prNum: int, view: Option<map<string, Json>>,
                     reviewedAt: int, outdir: string): (r: Result<(int, map<string, Json>)>)
    ensures prNum < 1 || prNum > 999999 ==> r == Ok((2, state))
    ensures 1 <= prNum <= 999999 && !Loaded(view) ==> r == Ok((0, state))
    ensures r.Err? <==> 1 <= prNum <= 999999 && Loaded(view) && !ViewReadable(view.value)
    ensures r.Ok? ==> (r.value.0 == 2 <==> prNum < 1 || prNum > 999999)
    ensures r.Ok? && r.value.0 == 0 && Loaded(view) ==>
      r.value.1 == RecordReview(state, prNum, view.value, reviewedAt, outdir + "/" + IntToStr(prNum) + ".md")
  {
    if prNum < 1 || prNum > 999999 then Ok((2, state))
    else if !Loaded(view) then Ok((0, state))
    else if !ViewReadable(view.value) then Err("view field of an unexpected type")
    else Ok((0, RecordReview(state, prNum, view.value, reviewedAt, outdir + "/" + IntToStr(prNum) + ".md")))
  }
}
