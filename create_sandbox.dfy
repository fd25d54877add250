// The sandbox creator: validates a skill name or path, finds the skill's
// directory among the known skill roots, and copies it into a fresh
// temporary directory.
module CreateSandbox {
  import opened Wrappers
  import opened Text
  import opened Seqs

  const SkillNameMax: nat := 128
  const PathMax: nat := 4096
  const BaseDirMax: nat := 1024

  predicate IsNameStart(c: char) { IsAsciiAlnum(c) }
  predicate IsNameChar(c: char) { IsAsciiAlnum(c) || c == '_' || c == '-' }

  /** `[a-zA-Z0-9][a-zA-Z0-9_-]*` matching the whole of `s`. */
  predicate IsSkillName(s: string)
  {
    |s| > 0 && IsNameStart(s[0]) && forall i :: 0 <= i < |s| ==> IsNameChar(s[i])
  }

  /** Python `re.match` of `^[a-zA-Z0-9][a-zA-Z0-9_-]*$`: `$` also matches just
      before one final line feed. */
  predicate MatchesNamePattern(s: string)
  {
    IsSkillName(s) || (|s| > 0 && s[|s| - 1] == '\n' && IsSkillName(s[..|s| - 1]))
  }

  /** `(name or "").strip().replace("\x00", "")`. */
  function CleanName(name: Option<string>): (s: string)
    ensures '\0' !in s
  {
    var n := name.GetOr("");
    ReplaceCharWithEmpty(Strip(n), '\0');
    Replace(Strip(n), "\0", "")
  }

  /** `_sanitize_skill_name` as the source writes it. */
  function SanitizeSkillNameAsWritten(name: Option<string>): (r: Result<string>)
    ensures r.Ok? <==> |CleanName(name)| <= SkillNameMax && MatchesNamePattern(CleanName(name))
    ensures r.Ok? ==> r.value == CleanName(name)
  {
    var s := CleanName(name);
    if |s| > SkillNameMax then Err("skill name length exceeds " + NatToStr(SkillNameMax))
    else if !MatchesNamePattern(s) then Err("skill name must be alphanumeric with hyphens/underscores only")
    else Ok(s)
  }

  lemma NameHasNoNul(n: string)
    requires IsSkillName(n)
    ensures '\0' !in n + "\n"
  {
    var t := n + "\n";
    forall i | 0 <= i < |t| ensures t[i] != '\0' {
      if i < |n| {
        assert t[i] == n[i] && IsNameChar(n[i]);
      }
    }
  }

  lemma CleanNameTail(n: string)
    requires IsSkillName(n)
    ensures CleanName(Some(n + "\n\0")) == n + "\n"
  {
    var x := n + "\n\0";
    assert x[0] == n[0] && x[|x| - 1] == '\0';
    StripNoEdgeSpace(x);
    NameHasNoNul(n);
    ReplaceAppendAbsent(n + "\n", "\0");
    ReplaceNul();
    assert (n + "\n") + "\0" == x;
  }

  /** `$` lets a trailing line feed through: a valid name followed by a line
      feed and a NUL (which strip leaves in place and replace then removes) is
      accepted with the line feed in it. */
  lemma AsWrittenKeepsLineFeed(n: string)
    requires IsSkillName(n) && |n| < SkillNameMax
    ensures SanitizeSkillNameAsWritten(Some(n + "\n\0")) == Ok(n + "\n")
  {
    CleanNameTail(n);
    var t := n + "\n";
    assert t[..|t| - 1] == n;
  }

  /** The name check with the evident intent: the whole cleaned name matches. */
  function SanitizeSkillName(name: Option<string>): (r: Result<string>)
    ensures r.Ok? <==> |CleanName(name)| <= SkillNameMax && IsSkillName(CleanName(name))
    ensures r.Ok? ==> r.value == CleanName(name) && 0 < |r.value| <= SkillNameMax
    ensures r.Ok? ==> forall i :: 0 <= i < |r.value| ==> r.value[i] !in {'.', '/', ' ', '\n', '\0'}
  {
    var s := CleanName(name);
    if |s| > SkillNameMax then Err("skill name length exceeds " + NatToStr(SkillNameMax))
    else if !IsSkillName(s) then Err("skill name must be alphanumeric with hyphens/underscores only")
    else Ok(s)
  }

  /** The correction only rejects names the `$` quirk let through. */
  lemma SanitizeSkillNameAgrees(name: Option<string>)
    ensures SanitizeSkillName(name).Ok? ==> SanitizeSkillNameAsWritten(name) == SanitizeSkillName(name)
    ensures SanitizeSkillNameAsWritten(name).Ok? && SanitizeSkillName(name).Err? ==>
      var s := CleanName(name); s[|s| - 1] == '\n' && IsSkillName(s[..|s| - 1])
  {
  }

  /** A name without NUL, as every command-line argument is, is cleaned to
      its strip, which cannot end in a line feed: there the two checks agree. */
  lemma AsWrittenAgreesWithoutNul(name: Option<string>)
    requires name.Some? ==> '\0' !in name.value
    ensures SanitizeSkillNameAsWritten(name) == SanitizeSkillName(name)
  {
    SanitizeSkillNameAgrees(name);
    var n := name.GetOr("");
    StripKeepsAbsent(n, '\0');
    ReplaceAbsentChar(Strip(n), '\0', "");
    assert CleanName(name) == Strip(n);
    assert IsSpace('\n');
  }

  // ---------------------------------------------------------------------
  // _sanitize_path

  /** `s.strip().strip("\x00").strip()`. */
  function CleanPath(s: string): (r: string)
    ensures |r| <= |s|
    ensures r != [] ==> !IsSpace(r[0]) && !IsSpace(r[|r| - 1])
  {
    Strip(StripChars(Strip(s), {'\0'}))
  }

  /** The file system as the script observes it. */
  datatype Fs = Fs(present: string -> bool, isDir: string -> bool)

  /** `_sanitize_path`: a path of at most `maxLen` characters that, cleaned,
      is non-empty and names an existing directory. */
  function SanitizePath(s: string, maxLen: nat, fs: Fs): (r: Result<string>)
    ensures r.Ok? <==> |s| <= maxLen && CleanPath(s) != [] && fs.present(CleanPath(s)) && fs.isDir(CleanPath(s))
    ensures r.Ok? ==> r.value == CleanPath(s)
  {
    if |s| > maxLen then Err("path invalid or length > " + NatToStr(maxLen))
    else
      var p := CleanPath(s);
      if p == [] then Err("path is empty")
      else if !fs.present(p) then Err("path does not exist: " + p)
      else if !fs.isDir(p) then Err("path is not a directory: " + p)
      else Ok(p)
  }

  // ---------------------------------------------------------------------
  // _resolve_skill_dir_by_name

  const CwdSubdirs: seq<string> := ["_localsetup/skills", ".cursor/skills", ".claude/skills", ".agents/skills", "skills"]

  function Join2(dir: string, name: string): string
  {
    dir + "/" + name
  }

  function CwdCandidates(cwd: string): (r: seq<string>)
    ensures |r| == |CwdSubdirs|
    ensures forall i :: 0 <= i < |r| ==> r[i] == Join2(cwd, CwdSubdirs[i])
  {
    seq(|CwdSubdirs|, i requires 0 <= i < |CwdSubdirs| => Join2(cwd, CwdSubdirs[i]))
  }

  /** The roots in search order: the framework directory's `skills` when
      LOCALSETUP_FRAMEWORK_DIR is set (it is inserted at the front), then the
      given skills root when it is a directory, then the existing directories
      among the current directory's five conventional subdirectories, in order. */
  method CandidateRoots(envFw: string, skillsRoot: Option<string>, cwd: string, fs: Fs) returns (roots: seq<string>)
    ensures roots == (if Strip(envFw) != [] then [Join2(Strip(envFw), "skills")] else [])
                     + (if skillsRoot.Some? && fs.isDir(skillsRoot.value) then [skillsRoot.value] else [])
                     + Filter(CwdCandidates(cwd), fs.isDir)
  {
    roots := [];
    if skillsRoot.Some? && fs.isDir(skillsRoot.value) {
      roots := roots + [skillsRoot.value];
    }
    var existing := ExistingDirs(CwdCandidates(cwd), fs.isDir);
    roots := roots + existing;
    var env := Strip(envFw);
    if env != [] {
      roots := [Join2(env, "skills")] + roots;
    }
  }

  /** The loop over the conventional subdirectories: those that are directories,
      in order. */
  method ExistingDirs(subs: seq<string>, isDir: string -> bool) returns (found: seq<string>)
    ensures found == Filter(subs, isDir)
  {
    found := [];
    for k := 0 to |subs|
      invariant found == Filter(subs[..k], isDir)
    {
      FilterPrefixStep(subs, isDir, k);
      if isDir(subs[k]) {
        found := found + [subs[k]];
      }
    }
    assert subs[..|subs|] == subs;
  }

  /** The first root holding a directory of that name wins. */
  method FindIn(roots: seq<string>, name: string, fs: Fs) returns (r: Result<string>)
    ensures r.Ok? ==> exists k :: 0 <= k < |roots| && r.value == Join2(roots[k], name) && fs.isDir(r.value)
                                   && forall j :: 0 <= j < k ==> !fs.isDir(Join2(roots[j], name))
    ensures r.Err? <==> forall j :: 0 <= j < |roots| ==> !fs.isDir(Join2(roots[j], name))
  {
    for k := 0 to |roots|
      invariant forall j :: 0 <= j < k ==> !fs.isDir(Join2(roots[j], name))
    {
      var candidate := Join2(roots[k], name);
      if fs.isDir(candidate) {
        return Ok(candidate);
      }
    }
    r := Err("skill directory not found for name '" + name + "' in any known skills root");
  }

  // ---------------------------------------------------------------------
  // main

  /** The environment of one run: the file system, the current directory,
      LOCALSETUP_FRAMEWORK_DIR, the platform temp directory, the directory
      `mkdtemp` creates (None when it fails) and whether the copy succeeds. */
  datatype Env = Env(fs: Fs, cwd: string, envFw: string, tempDir: string,
                     mkdtemp: Option<string>, copyOk: bool)

  /** `Path(p).name`: the last component once trailing slashes and `.`
      components are dropped; empty for the root or an empty path. */
  function BaseName(p: string): (r: string)
    ensures '/' !in r && r != "."
    decreases |p|
  {
    if p == [] then []
    else if p[|p| - 1] == '/' then BaseName(p[..|p| - 1])
    else
      match LastIndexOfChar(p, '/')
      case None => if p == "." then [] else p
      case Some(k) => if p[k + 1..] == "." then BaseName(p[..k]) else p[k + 1..]
  }

  /** A trailing slash does not change the name. */
  lemma BaseNameTrailingSlash(p: string)
    ensures BaseName(p + "/") == BaseName(p)
  {
    assert (p + "/")[..|p|] == p;
  }

  /** The name of `dir/name` is `name` for a single component. */
  lemma BaseNameJoin(dir: string, name: string)
    requires name != [] && '/' !in name && name != "."
    ensures BaseName(Join2(dir, name)) == name
  {
    var p := Join2(dir, name);
    assert p[|p| - 1] == name[|name| - 1];
    assert p[|dir|] == '/';
    var k := LastIndexOfChar(p, '/').value;
    assert k == |dir|;
    assert p[k + 1..] == name;
  }

  /** An accepted name is a single non-empty path component other than `.`. */
  lemma AcceptedNameIsComponent(name: Option<string>)
    requires SanitizeSkillNameAsWritten(name).Ok?
    ensures var v := SanitizeSkillNameAsWritten(name).value; v != [] && '/' !in v && v != "."
  {
    var v := CleanName(name);
    var n := if IsSkillName(v) then |v| else |v| - 1;
    assert IsSkillName(v[..n]) by {
      if IsSkillName(v) {
        assert v[..n] == v;
      }
    }
    forall i | 0 <= i < |v| ensures v[i] != '/' {
      if i < n {
        assert v[i] == v[..n][i];
      }
    }
    assert v[0] == v[..n][0];
  }

  /** The command-line arguments; argparse makes `--skill-path` and
      `--skill-name` mutually exclusive. */
  datatype Args = Args(skillPath: Option<string>, skillName: Option<string>,
                       skillsRoot: Option<string>, baseDir: Option<string>)

  predicate Given(o: Option<string>) { o.Some? && o.value != [] }

  /** `main`: the skill directory from `--skill-path`, or else by name among the
      roots; then the sandbox under the base directory.  Exit 0 prints the
      copy's path, 2 follows a ValueError or FileNotFoundError and 1 any other
      OSError. */
  method Execute(args: Args, env: Env) returns (code: int, out: string)
    ensures code in {0, 1, 2}
    ensures code == 0 ==> env.mkdtemp.Some? && env.copyOk && |out| > |env.mkdtemp.value|
    ensures code == 0 ==> out[..|env.mkdtemp.value| + 1] == env.mkdtemp.value + "/" && '/' !in out[|env.mkdtemp.value| + 1..]
    ensures code != 0 ==> out == []
    ensures code == 0 && Given(args.skillPath) ==>
      out == env.mkdtemp.value + "/" + BaseName(CleanPath(args.skillPath.value))
    ensures code == 0 && !Given(args.skillPath) ==> out == env.mkdtemp.value + "/" + CleanName(args.skillName)
    ensures Given(args.skillPath) && SanitizePath(args.skillPath.value, PathMax, env.fs).Err? ==> code == 2
    ensures !Given(args.skillPath) && SanitizeSkillNameAsWritten(args.skillName).Err? ==> code == 2
    ensures !Given(args.skillPath) && Given(args.skillsRoot) && !env.fs.isDir(args.skillsRoot.value) ==> code == 2
    ensures env.mkdtemp.None? ==> code != 0
  {
    out := [];
    var skillDir: string;
    if Given(args.skillPath) {
      var p := SanitizePath(args.skillPath.value, PathMax, env.fs);
      if p.Err? {
        return 2, [];
      }
      skillDir := p.value;
    } else {
      var n := SanitizeSkillNameAsWritten(args.skillName);
      if n.Err? {
        return 2, [];
      }
      AcceptedNameIsComponent(args.skillName);
      var root: Option<string> := if Given(args.skillsRoot) then Some(args.skillsRoot.value) else None;
      if root.Some? && !env.fs.isDir(root.value) {
        return 2, [];
      }
      var roots := CandidateRoots(env.envFw, root, env.cwd, env.fs);
      var found := FindIn(roots, n.value, env.fs);
      if found.Err? {
        return 2, [];
      }
      skillDir := found.value;
      ghost var k :| 0 <= k < |roots| && found.value == Join2(roots[k], n.value);
      BaseNameJoin(roots[k], n.value);
    }
    if Given(args.baseDir) {
      var b := SanitizePath(args.baseDir.value, BaseDirMax, env.fs);
      if b.Err? {
        return 2, [];
      }
    }
    if env.mkdtemp.None? || !env.copyOk {
      return 1, [];
    }
    var leaf := BaseName(skillDir);
    out := env.mkdtemp.value + "/" + leaf;
    assert out[..|env.mkdtemp.value| + 1] == env.mkdtemp.value + "/";
    assert out[|env.mkdtemp.value| + 1..] == leaf;
    code := 0;
  }
}
