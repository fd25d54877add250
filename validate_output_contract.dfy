// The output-contract validator: checks the enriched public skill index, the
// output-contract markers of skills and templates, the hardening tokens of two
// tools and the tooling-policy markers, collecting every problem in one error
// list, and exits 1 when that list is not empty.
module ValidateOutputContract {
  import opened Wrappers
  import opened Text
  import opened Seqs

  /** The error list the validators share and append to. */
  class ErrorLog {
    var errors: seq<string>

    constructor()
      ensures errors == []
    {
      errors := [];
    }

    /** `fail`. */
    method Fail(msg: string)
      modifies this
      ensures errors == old(errors) + [msg]
    {
      errors := errors + [msg];
    }
  }

  /** The files visible to the validator, by path, with their text. */
  type Files = map<string, string>

  // ---------------------------------------------------------------------
  // validate_index

  const RequiredIndexFields: seq<string> := ["name", "description", "url", "source_registry", "summary_short",
                                             "summary_long", "capabilities", "requirements", "risk_flags", "quality_signals"]

  /** The index file as the validator finds it: absent, not parseable as YAML,
      loaded as a mapping (a falsy document loads as the empty mapping), or a
      truthy document that is not a mapping, on which `data.get` raises. */
  datatype IndexFile = Missing | Unparsable(reason: string) | Loaded(doc: map<string, Json>) | NotMapping

  predicate Absent(fields: map<string, Json>, f: string) { f !in fields }

  /** The fields of `required` that a skill entry lacks, in the order they are
      checked. */
  function MissingFields(fields: map<string, Json>, required: seq<string>): (r: seq<string>)
    ensures forall i :: 0 <= i < |r| ==> r[i] in required && r[i] !in fields
  {
    Filter(required, f => Absent(fields, f))
  }

  function MissingFieldMsgs(idx: nat, names: seq<string>): (r: seq<string>)
    ensures |r| == |names|
  {
    seq(|names|, i requires 0 <= i < |names| => "skills[" + NatToStr(idx) + "] missing field: " + names[i])
  }

  /** The errors for the skill at 1-based position `idx`: one when it is not a
      mapping, otherwise one per missing required field. */
  function SkillErrors(skill: Json, idx: nat, required: seq<string>): (r: seq<string>)
    ensures !skill.JObj? ==> |r| == 1
    ensures skill.JObj? ==> |r| == |MissingFields(skill.fields, required)|
  {
    if !skill.JObj? then ["skills[" + NatToStr(idx) + "] is not a mapping"]
    else MissingFieldMsgs(idx, MissingFields(skill.fields, required))
  }

  function SkillStep(required: seq<string>): (Json, nat) -> seq<string>
  {
    (skill: Json, idx: nat) => SkillErrors(skill, idx, required)
  }

  predicate ValidSchemaVersion(v: Json) { v.JInt? && v.i >= 2 }

  /** The schema-version check of `validate_index`. */
  function SchemaErrors(path: string, doc: map<string, Json>): (r: seq<string>)
    ensures r == [] <==> ValidSchemaVersion(Get(doc, "schema_version"))
    ensures |r| <= 1
  {
    if ValidSchemaVersion(Get(doc, "schema_version")) then []
    else ["Invalid schema_version in " + path + ": expected int >= 2"]
  }

  /** The skills-list check of `validate_index`: one error for a missing or
      empty list, otherwise the errors of each skill in turn. */
  function SkillListErrors(path: string, doc: map<string, Json>, required: seq<string>): (r: seq<string>)
    ensures !(Get(doc, "skills").JList? && Get(doc, "skills").items != []) ==>
      r == ["Missing or empty skills list in " + path]
  {
    var skills := Get(doc, "skills");
    if !skills.JList? || skills.items == [] then ["Missing or empty skills list in " + path]
    else FlatMap(SkillStep(required), skills.items, 1)
  }

  /** `validate_index` with the required fields `required`: the errors it
      appends. */
  function IndexErrors(path: string, file: IndexFile, required: seq<string>): (r: seq<string>)
    ensures file.Missing? || file.Unparsable? ==> |r| == 1
    ensures file.NotMapping? ==> r == []
    ensures file.Loaded? && !(Get(file.doc, "skills").JList? && Get(file.doc, "skills").items != []) ==>
      1 <= |r| <= 2 && r[|r| - 1] == "Missing or empty skills list in " + path
  {
    match file
    case Missing => ["Missing file: " + path]
    case Unparsable(reason) => ["Failed to parse YAML: " + path + " (" + reason + ")"]
    case Loaded(doc) => SchemaErrors(path, doc) + SkillListErrors(path, doc, required)
    case NotMapping => []
  }

  /** An index with a good schema version and a non-empty list of complete
      skill mappings yields no error. */
  lemma WellFormedIndexClean(path: string, doc: map<string, Json>, required: seq<string>)
    requires ValidSchemaVersion(Get(doc, "schema_version"))
    requires Get(doc, "skills").JList? && Get(doc, "skills").items != []
    requires forall k :: 0 <= k < |Get(doc, "skills").items| ==>
      Get(doc, "skills").items[k].JObj? && forall f :: f in required ==> f in Get(doc, "skills").items[k].fields
    ensures IndexErrors(path, Loaded(doc), required) == []
  {
    var items := Get(doc, "skills").items;
    forall k | 0 <= k < |items| ensures SkillStep(required)(items[k], 1 + k) == [] {
      var fields := items[k].fields;
      assert |MissingFields(fields, required)| == 0 by {
        CountIfNone(required, f => Absent(fields, f));
      }
    }
    FlatMapEmpty(SkillStep(required), items, 1);
  }

  /** The field loop for one skill mapping. */
  method CheckFields(log: ErrorLog, fields: map<string, Json>, idx: nat, required: seq<string>)
    modifies log
    ensures log.errors == old(log.errors) + MissingFieldMsgs(idx, MissingFields(fields, required))
  {
    ghost var p := f => Absent(fields, f);
    for k := 0 to |required|
      invariant log.errors == old(log.errors) + MissingFieldMsgs(idx, Filter(required[..k], p))
    {
      FilterPrefixStep(required, p, k);
      var field := required[k];
      ghost var before := Filter(required[..k], p);
      if field !in fields {
        log.Fail("skills[" + NatToStr(idx) + "] missing field: " + field);
        assert MissingFieldMsgs(idx, before + [field]) == MissingFieldMsgs(idx, before) + ["skills[" + NatToStr(idx) + "] missing field: " + field];
      } else {
        assert before + [] == before;
      }
    }
    assert required[..|required|] == required;
  }

  /** `validate_index`; `raised` tells that `data.get` raised, which ends
      `main` with a traceback. */
  method ValidateIndex(log: ErrorLog, path: string, file: IndexFile, required: seq<string>) returns (raised: bool)
    modifies log
    ensures raised <==> file.NotMapping?
    ensures log.errors == old(log.errors) + IndexErrors(path, file, required)
  {
    raised := false;
    match file
    case NotMapping =>
      raised := true;
    case Missing =>
      log.Fail("Missing file: " + path);
    case Unparsable(reason) =>
      log.Fail("Failed to parse YAML: " + path + " (" + reason + ")");
    case Loaded(doc) =>
      ghost var start := log.errors;
      if !ValidSchemaVersion(Get(doc, "schema_version")) {
        log.Fail("Invalid schema_version in " + path + ": expected int >= 2");
      }
      CheckSkillList(log, path, doc, required);
      AppendAssoc(start, SchemaErrors(path, doc), SkillListErrors(path, doc, required));
  }

  /** The skills-list part of `validate_index`. */
  method CheckSkillList(log: ErrorLog, path: string, doc: map<string, Json>, required: seq<string>)
    modifies log
    ensures log.errors == old(log.errors) + SkillListErrors(path, doc, required)
  {
    var skills := Get(doc, "skills");
    if !skills.JList? || skills.items == [] {
      log.Fail("Missing or empty skills list in " + path);
    } else {
      CheckSkills(log, skills.items, required);
    }
  }

  method CheckSkills(log: ErrorLog, items: seq<Json>, required: seq<string>)
    modifies log
    ensures log.errors == old(log.errors) + FlatMap(SkillStep(required), items, 1)
  {
    ghost var start := log.errors;
    ghost var f := SkillStep(required);
    for k := 0 to |items|
      invariant log.errors == start + FlatMap(f, items[..k], 1)
    {
      FlatMapPrefixStep(f, items, 1, k);
      var skill := items[k];
      if !skill.JObj? {
        log.Fail("skills[" + NatToStr(k + 1) + "] is not a mapping");
      } else {
        CheckFields(log, skill.fields, k + 1, required);
      }
      AppendAssoc(start, FlatMap(f, items[..k], 1), f(skill, k + 1));
    }
    assert items[..|items|] == items;
  }

  // ---------------------------------------------------------------------
  // validate_markers, validate_external_input_hardening, validate_tooling_policy

  /** One file that must exist and contain `marker`: one error when it is
      missing, one when the marker is absent, none otherwise. */
  function MarkerCheck(path: string, marker: string, files: Files, missingMsg: string, absentMsg: string): (r: seq<string>)
    ensures |r| <= 1
    ensures r == [] <==> path in files && Contains(files[path], marker)
  {
    if path !in files then [missingMsg]
    else if !Contains(files[path], marker) then [absentMsg]
    else []
  }

  /** The output-contract markers, by path below the engine directory. */
  const MarkerFiles: seq<(string, string)> := [
    ("skills/localsetup-context/SKILL.md", "## Output contract (low token, always apply)"),
    ("skills/localsetup-communication-and-tools/SKILL.md", "**Output contract (always):**"),
    ("skills/localsetup-skill-discovery/SKILL.md", "Presentation fallback by platform capability:"),
    ("templates/cursor/localsetup-context.mdc", "## Output contract (low token, always apply)"),
    ("templates/claude-code/CLAUDE.md", "## Output contract (low token, always apply)"),
    ("templates/codex/AGENTS.md", "## Output contract (low token, always apply)"),
    ("templates/openclaw/OPENCLAW_CONTEXT.md", "## Output contract (low token, always apply)")
  ]

  function MarkerStep(engineDir: string, files: Files): ((string, string), nat) -> seq<string>
  {
    (e: (string, string), i: nat) =>
      var path := engineDir + "/" + e.0;
      MarkerCheck(path, e.1, files, "Missing file: " + path, "Missing marker in " + path + ": " + e.1)
  }

  function MarkerErrors(engineDir: string, files: Files, table: seq<(string, string)>): seq<string>
  {
    FlatMap(MarkerStep(engineDir, files), table, 0)
  }

  method ValidateMarkers(log: ErrorLog, engineDir: string, files: Files, table: seq<(string, string)>)
    modifies log
    ensures log.errors == old(log.errors) + MarkerErrors(engineDir, files, table)
  {
    ghost var start := log.errors;
    ghost var f := MarkerStep(engineDir, files);
    for k := 0 to |table|
      invariant log.errors == start + FlatMap(f, table[..k], 0)
    {
      FlatMapPrefixStep(f, table, 0, k);
      var (rel, marker) := table[k];
      var path := engineDir + "/" + rel;
      if path !in files {
        log.Fail("Missing file: " + path);
      } else if !Contains(files[path], marker) {
        log.Fail("Missing marker in " + path + ": " + marker);
      }
      AppendAssoc(start, FlatMap(f, table[..k], 0), f(table[k], k));
    }
    assert table[..|table|] == table;
  }

  /** The tokens each hardened tool must contain, by file name below the tools
      directory. */
  const HardeningRules: seq<(string, seq<string>)> := [
    ("refresh_public_skill_index.py",
     ["def sanitize_text(", "def sanitize_url(", "def report_error(", "errors=\"replace\"", "file=sys.stderr"]),
    ("skill_validation_scan.py",
     ["sanitize_for_output(", "errors=\"replace\"", "file=sys.stderr", "try:"])
  ]

  function TokenStep(path: string, text: string): (string, nat) -> seq<string>
  {
    (token: string, i: nat) => if Contains(text, token) then [] else ["Hardening token missing in " + path + ": " + token]
  }

  /** A missing tool file is one error; otherwise one error per absent token. */
  function HardeningCheck(path: string, tokens: seq<string>, files: Files): (r: seq<string>)
    ensures path !in files ==> |r| == 1
    ensures path in files ==> |r| <= |tokens| && (r == [] <==> forall k :: 0 <= k < |tokens| ==> Contains(files[path], tokens[k]))
  {
    if path !in files then ["Missing file for hardening check: " + path]
    else
      TokenErrorsCount(path, files[path], tokens);
      FlatMap(TokenStep(path, files[path]), tokens, 0)
  }

  lemma {:induction false} TokenErrorsCount(path: string, text: string, tokens: seq<string>)
    ensures |FlatMap(TokenStep(path, text), tokens, 0)| <= |tokens|
    ensures FlatMap(TokenStep(path, text), tokens, 0) == [] <==> forall k :: 0 <= k < |tokens| ==> Contains(text, tokens[k])
    decreases |tokens|
  {
    if tokens != [] {
      var init := tokens[..|tokens| - 1];
      TokenErrorsCount(path, text, init);
      assert forall k :: 0 <= k < |init| ==> init[k] == tokens[k];
    }
  }

  function HardeningStep(engineDir: string, files: Files): ((string, seq<string>), nat) -> seq<string>
  {
    (e: (string, seq<string>), i: nat) => HardeningCheck(engineDir + "/tools/" + e.0, e.1, files)
  }

  function HardeningErrors(engineDir: string, files: Files, table: seq<(string, seq<string>)>): seq<string>
  {
    FlatMap(HardeningStep(engineDir, files), table, 0)
  }

  /** The token loop for one present tool file. */
  method CheckTokens(log: ErrorLog, path: string, text: string, tokens: seq<string>)
    modifies log
    ensures log.errors == old(log.errors) + FlatMap(TokenStep(path, text), tokens, 0)
  {
    ghost var start := log.errors;
    ghost var f := TokenStep(path, text);
    for k := 0 to |tokens|
      invariant log.errors == start + FlatMap(f, tokens[..k], 0)
    {
      FlatMapPrefixStep(f, tokens, 0, k);
      if !Contains(text, tokens[k]) {
        log.Fail("Hardening token missing in " + path + ": " + tokens[k]);
      }
      AppendAssoc(start, FlatMap(f, tokens[..k], 0), f(tokens[k], k));
    }
    assert tokens[..|tokens|] == tokens;
  }

  method ValidateHardening(log: ErrorLog, engineDir: string, files: Files, table: seq<(string, seq<string>)>)
    modifies log
    ensures log.errors == old(log.errors) + HardeningErrors(engineDir, files, table)
  {
    ghost var start := log.errors;
    ghost var f := HardeningStep(engineDir, files);
    for k := 0 to |table|
      invariant log.errors == start + FlatMap(f, table[..k], 0)
    {
      FlatMapPrefixStep(f, table, 0, k);
      var (name, tokens) := table[k];
      var path := engineDir + "/tools/" + name;
      if path !in files {
        log.Fail("Missing file for hardening check: " + path);
      } else {
        CheckTokens(log, path, files[path], tokens);
      }
      AppendAssoc(start, FlatMap(f, table[..k], 0), f(table[k], k));
    }
    assert table[..|table|] == table;
  }

  /** The tooling-policy markers: a name, a path below the repository root and
      the marker text. */
  const PolicyMarkers: seq<(string, string, string)> := [
    ("context_rule", ".cursor/rules/localsetup-context.mdc", "Python-first tooling:"),
    ("tooling_doc", "_localsetup/docs/TOOLING_POLICY.md", "Minimum supported version: Python 3.10."),
    ("install_bash", "install", "MIN_PYTHON_VERSION=\"3.10.0\""),
    ("install_ps1", "install.ps1", "$MinPythonVersion = [Version]'3.10.0'")
  ]

  function PolicyStep(repoRoot: string, files: Files): ((string, string, string), nat) -> seq<string>
  {
    (e: (string, string, string), i: nat) =>
      var path := repoRoot + "/" + e.1;
      MarkerCheck(path, e.2, files, "Missing tooling policy file (" + e.0 + "): " + path,
                  "Missing tooling policy marker in " + path + ": " + e.2)
  }

  function PolicyErrors(repoRoot: string, files: Files, table: seq<(string, string, string)>): seq<string>
  {
    FlatMap(PolicyStep(repoRoot, files), table, 0)
  }

  method ValidatePolicy(log: ErrorLog, repoRoot: string, files: Files, table: seq<(string, string, string)>)
    modifies log
    ensures log.errors == old(log.errors) + PolicyErrors(repoRoot, files, table)
  {
    ghost var start := log.errors;
    ghost var f := PolicyStep(repoRoot, files);
    for k := 0 to |table|
      invariant log.errors == start + FlatMap(f, table[..k], 0)
    {
      FlatMapPrefixStep(f, table, 0, k);
      var (name, rel, marker) := table[k];
      var path := repoRoot + "/" + rel;
      if path !in files {
        log.Fail("Missing tooling policy file (" + name + "): " + path);
      } else if !Contains(files[path], marker) {
        log.Fail("Missing tooling policy marker in " + path + ": " + marker);
      }
      AppendAssoc(start, FlatMap(f, table[..k], 0), f(table[k], k));
    }
    assert table[..|table|] == table;
  }

  /** Each marker file contributes at most one error, and none exactly when it
      exists and holds its marker. */
  lemma {:induction false} MarkerErrorsBound(engineDir: string, files: Files, table: seq<(string, string)>)
    ensures |MarkerErrors(engineDir, files, table)| <= |table|
    ensures MarkerErrors(engineDir, files, table) == [] <==>
      forall k :: 0 <= k < |table| ==> engineDir + "/" + table[k].0 in files
                                       && Contains(files[engineDir + "/" + table[k].0], table[k].1)
    decreases |table|
  {
    if table != [] {
      var init := table[..|table| - 1];
      MarkerErrorsBound(engineDir, files, init);
      assert forall k :: 0 <= k < |init| ==> init[k] == table[k];
    }
  }

  // ---------------------------------------------------------------------
  // main

  /** The four tables `main` validates against. */
  datatype Tables = Tables(required: seq<string>, markers: seq<(string, string)>,
                           hardening: seq<(string, seq<string>)>, policy: seq<(string, string, string)>)

  const SourceTables: Tables := Tables(RequiredIndexFields, MarkerFiles, HardeningRules, PolicyMarkers)

  function IndexPath(engineDir: string): string
  {
    engineDir + "/docs/PUBLIC_SKILL_INDEX.yaml"
  }

  function AllErrors(engineDir: string, repoRoot: string, index: IndexFile, files: Files, t: Tables): seq<string>
  {
    IndexErrors(IndexPath(engineDir), index, t.required) + MarkerErrors(engineDir, files, t.markers)
    + HardeningErrors(engineDir, files, t.hardening) + PolicyErrors(repoRoot, files, t.policy)
  }

  const PrintLimit: nat := 200

  /** The errors `main` lists: the first 200. */
  function Shown(errors: seq<string>): (r: seq<string>)
    ensures |r| == if |errors| <= PrintLimit then |errors| else PrintLimit
    ensures r == errors[..|r|]
  {
    if |errors| <= PrintLimit then errors else errors[..PrintLimit]
  }

  function Bullets(errors: seq<string>): (r: seq<string>)
    ensures |r| == |errors|
    ensures forall i :: 0 <= i < |r| ==> r[i] == " - " + errors[i]
  {
    seq(|errors|, i requires 0 <= i < |errors| => " - " + errors[i])
  }

  function MoreLine(errors: seq<string>): (r: seq<string>)
    ensures |errors| <= PrintLimit ==> r == []
    ensures |errors| > PrintLimit ==> r == [" - ... and " + NatToStr(|errors| - PrintLimit) + " more"]
  {
    if |errors| > PrintLimit then [" - ... and " + NatToStr(|errors| - PrintLimit) + " more"] else []
  }

  /** What `main` prints: the verdict, then at most 200 errors, then how many
      were not shown. */
  function ReportLines(errors: seq<string>): (r: seq<string>)
    ensures errors == [] ==> r == ["[OK] Output contract, enriched index, and hardening validation passed"]
    ensures errors != [] ==> |r| == 1 + |Shown(errors)| + |MoreLine(errors)|
    ensures |r| <= PrintLimit + 2
  {
    if errors == [] then ["[OK] Output contract, enriched index, and hardening validation passed"]
    else ["[FAIL] Output contract and hardening validation failed"] + Bullets(Shown(errors)) + MoreLine(errors)
  }

  /** A failing report: the verdict, the first 200 errors in order, then the
      count of the rest when some were not shown. */
  lemma FailReport(errors: seq<string>)
    requires errors != []
    ensures var r := ReportLines(errors);
      && r[0] == "[FAIL] Output contract and hardening validation failed"
      && (forall i :: 0 <= i < |Shown(errors)| ==> r[i + 1] == " - " + errors[i])
      && (|errors| > PrintLimit ==> r[|r| - 1] == " - ... and " + NatToStr(|errors| - PrintLimit) + " more")
  {
  }

  /** The four validators of `main`, run in order on one error list; a raise
      in `validate_index` stops before the others run. */
  method CollectErrors(engineDir: string, repoRoot: string, index: IndexFile, files: Files, t: Tables)
    returns (errors: seq<string>, raised: bool)
    ensures raised <==> index.NotMapping?
    ensures raised ==> errors == []
    ensures !raised ==> errors == AllErrors(engineDir, repoRoot, index, files, t)
  {
    var log := new ErrorLog();
    raised := ValidateIndex(log, IndexPath(engineDir), index, t.required);
    if raised {
      errors := log.errors;
      return;
    }
    ValidateMarkers(log, engineDir, files, t.markers);
    ValidateHardening(log, engineDir, files, t.hardening);
    ValidatePolicy(log, repoRoot, files, t.policy);
    errors := log.errors;
    ghost var a := IndexErrors(IndexPath(engineDir), index, t.required);
    assert [] + a == a;
  }

  /** `main`: the exit code is 1 exactly when some error was found, or when
      the index document is not a mapping, in which case the uncaught
      exception ends the script (exit code 1) before it prints anything. */
  method Validate(engineDir: string, repoRoot: string, index: IndexFile, files: Files, t: Tables)
    returns (code: int, lines: seq<string>)
    ensures index.NotMapping? ==> code == 1 && lines == []
    ensures !index.NotMapping? ==> code == (if AllErrors(engineDir, repoRoot, index, files, t) == [] then 0 else 1)
    ensures !index.NotMapping? ==> lines == ReportLines(AllErrors(engineDir, repoRoot, index, files, t))
    ensures |lines| <= PrintLimit + 2
  {
    var errors, raised := CollectErrors(engineDir, repoRoot, index, files, t);
    if raised {
      return 1, [];
    }
    code := if errors == [] then 0 else 1;
    lines := ReportLines(errors);
  }

  /** `main` itself, on the script's own tables. */
  method Run(engineDir: string, repoRoot: string, index: IndexFile, files: Files)
    returns (code: int, lines: seq<string>)
    ensures index.NotMapping? ==> code == 1 && lines == []
    ensures !index.NotMapping? ==> code == (if AllErrors(engineDir, repoRoot, index, files, SourceTables) == [] then 0 else 1)
    ensures !index.NotMapping? ==> lines == ReportLines(AllErrors(engineDir, repoRoot, index, files, SourceTables))
  {
    code, lines := Validate(engineDir, repoRoot, index, files, SourceTables);
  }
}
