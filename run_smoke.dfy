// The sandbox smoke runner: validates a sandbox directory and one shell
// command, runs the command there, and maps the outcome to an exit code.
module RunSmoke {
  import opened Wrappers
  import opened Text

  const SandboxPathMax: nat := 4096
  const CommandMax: nat := 2048

  predicate HasControlChar(s: string)
  {
    exists i :: 0 <= i < |s| && IsControlChar(s[i])
  }

  /** `_sanitize_command`: trimmed first, then at most 2048 characters, no
      character of CONTROL_CHARS, and not empty; the trimmed command is returned. */
  function SanitizeCommand(s: Json): (r: Result<string>)
    ensures r.Ok? <==> s.JStr? && |Strip(s.s)| <= CommandMax && !HasControlChar(Strip(s.s)) && Strip(s.s) != []
    ensures r.Ok? ==> r.value == Strip(s.s)
  {
    if !s.JStr? then Err("command must be a string")
    else
      var t := Strip(s.s);
      if |t| > CommandMax then Err("command length exceeds " + NatToStr(CommandMax))
      else if HasControlChar(t) then Err("command contains invalid control characters")
      else if t == [] then Err("command is empty")
      else Ok(t)
  }

  /** A control character that is not whitespace (NUL, ESC, DEL, ...) is
      rejected wherever it stands. */
  lemma ControlCharRejected(s: string, c: char)
    requires c in s && IsControlChar(c) && !IsSpace(c)
    ensures SanitizeCommand(JStr(s)).Err?
  {
    StripKeepsNonSpace(s, c);
    var t := Strip(s);
    var k :| 0 <= k < |t| && t[k] == c;
    assert IsControlChar(t[k]);
  }

  /** Tab, line feed and carriage return are outside CONTROL_CHARS: a command
      using them is accepted when it is short and not blank. */
  lemma LineBreaksAccepted(s: string)
    requires forall i :: 0 <= i < |s| ==> !IsControlChar(s[i])
    requires |Strip(s)| <= CommandMax && Strip(s) != []
    ensures SanitizeCommand(JStr(s)) == Ok(Strip(s))
  {
    NoControlAfterStrip(s);
  }

  lemma NoControlAfterStrip(s: string)
    requires forall i :: 0 <= i < |s| ==> !IsControlChar(s[i])
    ensures !HasControlChar(Strip(s))
  {
    StripKeepsAll(s, c => !IsControlChar(c));
  }

  /** A vertical tab is both a control character and whitespace: at the
      start of the command it is trimmed before the check. */
  lemma EdgeControlTrimmed(w: string)
    ensures SanitizeCommand(JStr("\U{0B}" + w)) == SanitizeCommand(JStr(w))
  {
    var s := "\U{0B}" + w;
    assert s[1..] == w;
  }

  /** `_sanitize_path`: at most `maxLen` characters, trimmed of whitespace, then
      of NULs, then of whitespace again; non-empty, existing and a directory.
      `present` and `isDir` describe the directory the trimmed path names. */
  function SanitizePath(s: Json, maxLen: nat, present: string -> bool, isDir: string -> bool): (r: Result<string>)
    ensures r.Ok? <==> s.JStr? && |s.s| <= maxLen && CleanPath(s.s) != []
                        && present(CleanPath(s.s)) && isDir(CleanPath(s.s))
    ensures r.Ok? ==> r.value == CleanPath(s.s)
  {
    if !s.JStr? || |s.s| > maxLen then Err("path invalid or length > " + NatToStr(maxLen))
    else
      var p := CleanPath(s.s);
      if p == [] then Err("sandbox-dir is empty")
      else if !present(p) then Err("sandbox directory does not exist: " + p)
      else if !isDir(p) then Err("sandbox path is not a directory: " + p)
      else Ok(p)
  }

  /** `s.strip().strip("\x00").strip()`. */
  function CleanPath(s: string): (r: string)
    ensures |r| <= |s|
    ensures r != [] ==> !IsSpace(r[0]) && !IsSpace(r[|r| - 1])
  {
    Strip(StripChars(Strip(s), {'\0'}))
  }

  // ---------------------------------------------------------------------
  // main

  /** How running the command ended. */
  datatype ProcessOutcome = Exited(code: int) | TimedOut | OsFailure(message: string)

  /** `main`: 2 for a validation error, otherwise the command's own exit code,
      124 after the 300-second timeout and 1 when it could not be started. */
  function ExitCode(sandboxDir: Json, command: Json, present: string -> bool, isDir: string -> bool,
                outcome: ProcessOutcome): (code: int)
    ensures SanitizePath(sandboxDir, SandboxPathMax, present, isDir).Err? || SanitizeCommand(command).Err? ==> code == 2
    ensures SanitizePath(sandboxDir, SandboxPathMax, present, isDir).Ok? && SanitizeCommand(command).Ok? ==>
      code == match outcome
        case Exited(c) => c
        case TimedOut => 124
        case OsFailure(_) => 1
  {
    if SanitizePath(sandboxDir, SandboxPathMax, present, isDir).Err? then 2
    else if SanitizeCommand(command).Err? then 2
    else match outcome
      case Exited(c) => c
      case TimedOut => 124
      case OsFailure(_) => 1
  }
}
