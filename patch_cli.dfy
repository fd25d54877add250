// The Linux patcher command line: validates a host and a docker-compose path
// and builds the argument vector of the shell script it delegates to.
module PatchCli {
  import opened Wrappers
  import opened Text
  import opened Seqs

  const HostMax: nat := 512
  const PathMax: nat := 4096

  /** `_sanitize_host`: a string of at most 512 characters whose trimmed form
      is non-empty and holds no NUL and no line feed; the trimmed form is returned. */
  function SanitizeHost(s: Json): (r: Result<string>)
    ensures r.Ok? <==> s.JStr? && |s.s| <= HostMax && Strip(s.s) != []
                        && '\0' !in Strip(s.s) && '\n' !in Strip(s.s)
    ensures r.Ok? ==> r.value == Strip(s.s) && |r.value| <= HostMax
  {
    if !s.JStr? || |s.s| > HostMax then Err("host: invalid or too long")
    else
      var t := Strip(s.s);
      if t == [] then Err("host: empty")
      else if '\0' in t || '\n' in t then Err("host: invalid characters")
      else Ok(t)
  }

  /** `_sanitize_path`: a string of at most 4096 characters without NUL after
      trimming; the empty path is allowed. */
  function SanitizePath(s: Json): (r: Result<string>)
    ensures r.Ok? <==> s.JStr? && |s.s| <= PathMax && '\0' !in Strip(s.s)
    ensures r.Ok? ==> r.value == Strip(s.s)
  {
    if !s.JStr? || |s.s| > PathMax then Err("path: invalid or too long")
    else
      var t := Strip(s.s);
      if '\0' in t then Err("path: invalid characters") else Ok(t)
  }

  /** NUL is not whitespace, so a NUL anywhere in the raw text is rejected,
      and a path without one is accepted whenever it is short enough. */
  lemma PathNulAnywhere(s: string)
    requires |s| <= PathMax
    ensures SanitizePath(JStr(s)).Ok? <==> '\0' !in s
  {
    if '\0' in s {
      StripKeepsNonSpace(s, '\0');
    } else {
      StripKeepsAbsent(s, '\0');
    }
  }

  /** A line feed at either end is trimmed away, one inside is rejected. */
  lemma HostLineFeed(h: string)
    requires h != [] && |h| + 2 <= HostMax && NoSpace(h) && '\0' !in h
    ensures SanitizeHost(JStr("\n" + h + "\n")) == Ok(h)
    ensures |h| >= 2 ==> SanitizeHost(JStr(h[..1] + "\n" + h[1..])).Err?
  {
    var s := "\n" + h + "\n";
    var t := h + "\n";
    assert Strip(s) == Strip(t) by {
      assert s == ['\n'] + t;
      assert s[1..] == t;
    }
    assert Strip(h + "\n") == Strip(h) by {
      assert (h + "\n")[..|h|] == h;
    }
    StripNoEdgeSpace(h);
    assert '\n' !in h by {
      assert forall i :: 0 <= i < |h| ==> !IsSpace(h[i]);
    }
    if |h| >= 2 {
      var u := h[..1] + "\n" + h[1..];
      assert u[0] == h[0] && u[|u| - 1] == h[|h| - 1];
      StripNoEdgeSpace(u);
      assert u[1] == '\n';
    }
  }

  // ---------------------------------------------------------------------
  // main

  datatype Command =
    | Auto(skipDocker: bool, dryRun: bool)
    | HostOnly(host: string)
    | HostFull(host: string, dockerPath: string)
    | Multiple(config: string)

  /** What `main` does before the subprocess: run an argument vector, or exit. */
  datatype Outcome = Exec(argv: seq<string>) | Exit(code: int)

  function Script(scriptDir: string, name: string): string
  {
    scriptDir + "/" + name
  }

  /** The argument vector of the `auto` subcommand, built by conditional appends. */
  method AutoArgv(scriptDir: string, skipDocker: bool, dryRun: bool) returns (cmd: seq<string>)
    ensures |cmd| == 1 + (if skipDocker then 1 else 0) + (if dryRun then 1 else 0)
    ensures cmd[0] == Script(scriptDir, "patch-auto.sh")
    ensures skipDocker ==> cmd[1] == "--skip-docker"
    ensures dryRun ==> cmd[|cmd| - 1] == "--dry-run"
    ensures forall i :: 1 <= i < |cmd| ==> cmd[i] in {"--skip-docker", "--dry-run"}
    ensures ("--skip-docker" in cmd <==> skipDocker) && ("--dry-run" in cmd <==> dryRun)
  {
    assert Script(scriptDir, "patch-auto.sh")[|scriptDir|] == '/';
    cmd := [Script(scriptDir, "patch-auto.sh")];
    if skipDocker {
      cmd := cmd + ["--skip-docker"];
    }
    if dryRun {
      cmd := cmd + ["--dry-run"];
    }
  }

  /** The components `pathlib` keeps: empty ones (from repeated or trailing
      slashes) and `.` are dropped. */
  function PathParts(p: string): (r: seq<string>)
    ensures forall i :: 0 <= i < |r| ==> r[i] != [] && r[i] != "."
  {
    Filter(Split(p, "/"), KeptPart)
  }

  predicate KeptPart(c: string) { c != [] && c != "." }

  /** The root `pathlib` keeps: exactly two leading slashes stay two, one or
      three and more become one. */
  function PathRoot(p: string): (r: string)
    ensures r in {"", "/", "//"}
    ensures r != [] <==> StartsWith(p, "/")
  {
    if StartsWith(p, "//") && !StartsWith(p, "///") then "//"
    else if StartsWith(p, "/") then "/"
    else ""
  }

  /** `str(Path(p))` for a POSIX path: the root, then the kept components
      joined by single slashes; `.` when there is neither. */
  function PathStr(p: string): (r: string)
    ensures r != []
  {
    var root, parts := PathRoot(p), PathParts(p);
    if root == [] && parts == [] then "."
    else if root == [] then JoinFirst(parts); Join(parts, "/")
    else root + Join(parts, "/")
  }

  lemma JoinFirst(parts: seq<string>)
    requires parts != [] && parts[0] != []
    ensures Join(parts, "/") != [] && Join(parts, "/")[0] == parts[0][0]
  {
  }

  /** The result is absolute exactly when the path is. */
  lemma PathStrAbsolute(p: string)
    ensures StartsWith(PathStr(p), "/") <==> StartsWith(p, "/")
  {
    var parts := PathParts(p);
    if !StartsWith(p, "/") && parts != [] {
      JoinFirst(parts);
      SplitPartsFree(p, "/");
      assert parts[0] in Split(p, "/");
      ContainsChar(parts[0], '/');
      assert parts[0][0] != '/';
    }
  }

  /** A relative path's result is its kept components joined by single slashes. */
  lemma RelativePathStr(p: string, parts: seq<string>)
    requires !StartsWith(p, "/") && Filter(Split(p, "/"), KeptPart) == parts && parts != []
    ensures PathStr(p) == Join(parts, "/")
  {
  }

  /** A plain file name is left as it is. */
  lemma PlainNameKept(p: string)
    requires p != [] && '/' !in p && p != "."
    ensures PathStr(p) == p
  {
    ContainsChar(p, '/');
    SplitAbsent(p, "/");
    assert [p][..0] == [];
    RelativePathStr(p, [p]);
  }

  /** A slash repeated between two components does not change the result. */
  lemma RepeatedSlashDropped(a: string, b: string)
    requires KeptPart(a) && KeptPart(b) && '/' !in a && '/' !in b
    ensures PathStr(a + "//" + b) == a + "/" + b
  {
    var p := a + "//" + b;
    assert p[0] == a[0];
    ContainsChar(b, '/');
    SplitAbsent(b, "/");
    SplitAtFirst([], '/', b);
    assert p == a + ['/'] + ([] + ['/'] + b);
    SplitAtFirst(a, '/', [] + ['/'] + b);
    var s1: seq<string> := [a, [], b];
    assert Split(p, "/") == s1;
    assert s1[..2][..1] == [a] && s1[..2] == [a, []] && s1[..1][..0] == [];
    RelativePathStr(p, [a, b]);
  }

  /** A `.` component and a trailing slash do not change the result. */
  lemma DotAndTrailingSlashDropped(a: string, b: string)
    requires KeptPart(a) && KeptPart(b) && '/' !in a && '/' !in b
    ensures PathStr(a + "/./" + b + "/") == a + "/" + b
  {
    var p := a + "/./" + b + "/";
    assert p[0] == a[0];
    SplitAbsent([], "/");
    SplitAtFirst(b, '/', []);
    assert b + "/" == b + ['/'] + [];
    SplitAtFirst(".", '/', b + "/");
    assert p == a + ['/'] + ("." + ['/'] + (b + "/"));
    SplitAtFirst(a, '/', "." + ['/'] + (b + "/"));
    var s2: seq<string> := [a, ".", b, []];
    assert Split(p, "/") == s2;
    assert s2[..3][..2][..1] == [a] && s2[..3][..2] == [a, "."] && s2[..3] == [a, ".", b] && s2[..1][..0] == [];
    assert Filter(s2[..3][..2], KeptPart) == [a];
    assert Filter(s2[..3], KeptPart) == [a, b];
    RelativePathStr(p, [a, b]);
  }

  /** The validated values are discarded: the vector carries the host and path
      arguments as given and the configuration path as `pathlib` prints it,
      and any validation failure exits with 2.  `configIsFile` says
      whether the `multiple` configuration path names a file. */
  method Dispatch(cmd: Command, scriptDir: string, configIsFile: bool) returns (r: Outcome)
    ensures cmd.HostOnly? ==>
      r == (if SanitizeHost(JStr(cmd.host)).Ok? then Exec([Script(scriptDir, "patch-host-only.sh"), cmd.host]) else Exit(2))
    ensures cmd.HostFull? ==>
      r == (if SanitizeHost(JStr(cmd.host)).Ok? && SanitizePath(JStr(cmd.dockerPath)).Ok?
            then Exec([Script(scriptDir, "patch-host-full.sh"), cmd.host, cmd.dockerPath]) else Exit(2))
    ensures cmd.Multiple? ==>
      r == (if configIsFile then Exec([Script(scriptDir, "patch-multiple.sh"), PathStr(cmd.config)]) else Exit(2))
    ensures cmd.Auto? ==>
      r.Exec? && |r.argv| >= 1 && r.argv[0] == Script(scriptDir, "patch-auto.sh")
      && ("--skip-docker" in r.argv <==> cmd.skipDocker) && ("--dry-run" in r.argv <==> cmd.dryRun)
    ensures r.Exit? ==> r.code == 2
  {
    match cmd
    case Auto(skip, dry) =>
      var argv := AutoArgv(scriptDir, skip, dry);
      r := Exec(argv);
    case HostOnly(host) =>
      if SanitizeHost(JStr(host)).Err? {
        r := Exit(2);
      } else {
        r := Exec([Script(scriptDir, "patch-host-only.sh"), host]);
      }
    case HostFull(host, path) =>
      if SanitizeHost(JStr(host)).Err? || SanitizePath(JStr(path)).Err? {
        r := Exit(2);
      } else {
        r := Exec([Script(scriptDir, "patch-host-full.sh"), host, path]);
      }
    case Multiple(config) =>
      if !configIsFile {
        r := Exit(2);
      } else {
        r := Exec([Script(scriptDir, "patch-multiple.sh"), PathStr(config)]);
      }
  }
}
