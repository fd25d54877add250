// Command lines that a skill's SKILL.md documents inside fenced code blocks,
// kept only when they invoke one of the skill's own scripts.
module AuditCommands {
  import opened Wrappers
  import opened Text
  import opened AuditSanitize

  const MaxCmdLineLen: nat := 1024
  const MaxCmdBlockSize: nat := 8192
  const Fence := "```"

  /** A line whose stripped form starts with three backticks.  It closes the
      current block when it is exactly the marker and opens one otherwise. */
  predicate IsFenceLine(line: string)
  {
    StartsWith(Strip(line), Fence)
  }

  /** A cleaned line that names a Python invocation of a skill script. */
  predicate IsCommandLine(clean: string)
  {
    Contains(clean, "python") && Contains(clean, "scripts/") && !StartsWith(clean, "#")
  }

  /** A line with its control characters removed and its ends trimmed. */
  function CleanLine(line: string): (c: string)
    ensures forall i :: 0 <= i < |c| ==> !IsControlChar(c[i])
    ensures c != [] ==> !IsSpace(c[0]) && !IsSpace(c[|c| - 1])
  {
    var s := RemoveControlChars(line);
    var c := Strip(s);
    assert c != [] ==> !IsSpace(c[0]) && !IsSpace(c[|c| - 1]);
    StripCharsFrom(s);
    assert forall i :: 0 <= i < |c| ==> c[i] == s[StripOffset(s) + i];
    c
  }

  /** What the scan carries from line to line: whether a block is open, the
      block size (line lengths in characters, plus one per line) counted in it
      so far, and the commands. */
  datatype FenceScan = FenceScan(inFence: bool, blockSize: nat, commands: seq<string>)

  const Start := FenceScan(false, 0, [])

  /** A command the scan keeps. */
  predicate GoodCommand(c: string)
  {
    IsCommandLine(c) && |c| <= MaxCmdLineLen && forall i :: 0 <= i < |c| ==> !IsControlChar(c[i])
  }

  /** One line of the scan. */
  function ScanLine(st: FenceScan, line: string): (r: FenceScan)
    ensures r.commands == st.commands
         || (r.commands == st.commands + [CleanLine(line)] && GoodCommand(CleanLine(line))
             && st.inFence && r.blockSize <= MaxCmdBlockSize)
  {
    var s := Strip(line);
    if s == Fence then FenceScan(false, 0, st.commands)
    else if StartsWith(s, Fence) then FenceScan(true, 0, st.commands)
    else if !st.inFence then st
    else
      var size := st.blockSize + |line| + 1;
      var clean := CleanLine(line);
      if size > MaxCmdBlockSize || |clean| > MaxCmdLineLen || !IsCommandLine(clean) then
        FenceScan(true, size, st.commands)
      else
        FenceScan(true, size, st.commands + [clean])
  }

  /** A fence line resets the block counter and closes the block exactly when
      it is the bare marker; other lines leave a closed block closed and add
      their length plus one to an open block's counter. */
  lemma ScanLineState(st: FenceScan, line: string)
    ensures IsFenceLine(line) ==> ScanLine(st, line) == FenceScan(Strip(line) != Fence, 0, st.commands)
    ensures !IsFenceLine(line) && !st.inFence ==> ScanLine(st, line) == st
    ensures !IsFenceLine(line) && st.inFence ==>
      ScanLine(st, line).inFence && ScanLine(st, line).blockSize == st.blockSize + |line| + 1
  {
  }

  /** The scan over `lines`, starting in state `st`. */
  function ScanFrom(st: FenceScan, lines: seq<string>): (r: FenceScan)
    ensures |st.commands| <= |r.commands| && r.commands[..|st.commands|] == st.commands
    ensures forall i :: |st.commands| <= i < |r.commands| ==> GoodCommand(r.commands[i])
    decreases |lines|
  {
    if lines == [] then st
    else ScanLine(ScanFrom(st, lines[..|lines| - 1]), lines[|lines| - 1])
  }

  /** The command lines found in a SKILL.md text. */
  function FencedCommands(text: string): (r: seq<string>)
    ensures forall i :: 0 <= i < |r| ==> GoodCommand(r[i])
  {
    ScanFrom(Start, Split(text, "\n")).commands
  }

  lemma ScanFromSnoc(st: FenceScan, lines: seq<string>, line: string)
    ensures ScanFrom(st, lines + [line]) == ScanLine(ScanFrom(st, lines), line)
  {
    assert (lines + [line])[..|lines|] == lines;
  }

  lemma ScanPrefixStep(st: FenceScan, lines: seq<string>, i: nat)
    requires i < |lines|
    ensures ScanFrom(st, lines[..i + 1]) == ScanLine(ScanFrom(st, lines[..i]), lines[i])
  {
    assert lines[..i + 1] == lines[..i] + [lines[i]];
    ScanFromSnoc(st, lines[..i], lines[i]);
  }

  /** What the block size grows by for `lines`: each length in characters plus one. */
  function BlockSize(lines: seq<string>): (n: nat)
    ensures lines != [] ==> n >= |lines|
    decreases |lines|
  {
    if lines == [] then 0 else BlockSize(lines[..|lines| - 1]) + |lines[|lines| - 1]| + 1
  }

  /** After a fence line `m` and then lines without one, a block is open
      exactly when `m` was not the bare marker, and then its counter holds the
      block size of the lines since `m`. */
  lemma StateAfterFence(st: FenceScan, m: string, post: seq<string>)
    requires IsFenceLine(m)
    requires forall j :: 0 <= j < |post| ==> !IsFenceLine(post[j])
    ensures ScanFrom(ScanLine(st, m), post).inFence == (Strip(m) != Fence)
    ensures ScanFrom(ScanLine(st, m), post).inFence ==> ScanFrom(ScanLine(st, m), post).blockSize == BlockSize(post)
    ensures !ScanFrom(ScanLine(st, m), post).inFence ==> ScanFrom(ScanLine(st, m), post).blockSize == 0
  {
    var s1 := ScanLine(st, m);
    ScanLineState(st, m);
    if s1.inFence {
      OpenBlockCounts(s1, post);
    } else {
      NoFenceNoCommands(s1, post);
    }
  }

  /** Inside a block, lines without a fence marker keep it open and add their
      block size to the counter. */
  lemma {:induction false} OpenBlockCounts(st: FenceScan, lines: seq<string>)
    requires st.inFence
    requires forall j :: 0 <= j < |lines| ==> !IsFenceLine(lines[j])
    ensures ScanFrom(st, lines).inFence && ScanFrom(st, lines).blockSize == st.blockSize + BlockSize(lines)
    decreases |lines|
  {
    if lines != [] {
      var init, x := lines[..|lines| - 1], lines[|lines| - 1];
      assert forall j :: 0 <= j < |init| ==> init[j] == lines[j];
      OpenBlockCounts(st, init);
      ScanLineState(ScanFrom(st, init), x);
    }
  }

  /** Outside a block, lines without a fence marker change nothing. */
  lemma {:induction false} NoFenceNoCommands(st: FenceScan, lines: seq<string>)
    requires !st.inFence
    requires forall j :: 0 <= j < |lines| ==> !IsFenceLine(lines[j])
    ensures ScanFrom(st, lines) == st
    decreases |lines|
  {
    if lines != [] {
      NoFenceNoCommands(st, lines[..|lines| - 1]);
      ScanLineState(st, lines[|lines| - 1]);
    }
  }

  /** Once a block has grown past the size limit, nothing more is taken from it
      until the next fence line. */
  lemma {:induction false} OversizedBlockIgnored(st: FenceScan, lines: seq<string>)
    requires st.inFence && st.blockSize > MaxCmdBlockSize
    requires forall j :: 0 <= j < |lines| ==> !IsFenceLine(lines[j])
    ensures ScanFrom(st, lines).commands == st.commands
    ensures ScanFrom(st, lines).inFence && ScanFrom(st, lines).blockSize > MaxCmdBlockSize
    decreases |lines|
  {
    if lines != [] {
      var before := ScanFrom(st, lines[..|lines| - 1]);
      OversizedBlockIgnored(st, lines[..|lines| - 1]);
      ScanLineState(before, lines[|lines| - 1]);
    }
  }

  /** A text without any fence line documents no command. */
  lemma NoFenceNoText(text: string)
    requires forall j :: 0 <= j < |Split(text, "\n")| ==> !IsFenceLine(Split(text, "\n")[j])
    ensures FencedCommands(text) == []
  {
    NoFenceNoCommands(Start, Split(text, "\n"));
  }

  // ---------------------------------------------------------------------
  // Keeping the commands that name a script of the skill

  /** `cmd` mentions `scripts/` and one of the skill's discovered scripts. */
  predicate NamesKnownScript(cmd: string, known: seq<string>)
  {
    Contains(cmd, "scripts/") && exists k :: 0 <= k < |known| && Contains(cmd, known[k])
  }

  function KnownCommands(cmds: seq<string>, known: seq<string>): (r: seq<string>)
    ensures |r| <= |cmds|
    ensures forall i :: 0 <= i < |r| ==> r[i] in cmds && NamesKnownScript(r[i], known)
    decreases |cmds|
  {
    if cmds == [] then []
    else
      var c := cmds[|cmds| - 1];
      KnownCommands(cmds[..|cmds| - 1], known) + (if NamesKnownScript(c, known) then [c] else [])
  }

  lemma {:induction false} KnownCommandsComplete(cmds: seq<string>, known: seq<string>, k: nat)
    requires k < |cmds| && NamesKnownScript(cmds[k], known)
    ensures cmds[k] in KnownCommands(cmds, known)
    decreases |cmds|
  {
    if k < |cmds| - 1 {
      assert cmds[..|cmds| - 1][k] == cmds[k];
      KnownCommandsComplete(cmds[..|cmds| - 1], known, k);
    }
  }

  /** The documented commands of a skill: `None` stands for a SKILL.md that is
      missing or cannot be read. */
  function SkillCommands(skillMd: Option<string>, known: seq<string>): (r: seq<string>)
    ensures forall i :: 0 <= i < |r| ==> GoodCommand(r[i]) && NamesKnownScript(r[i], known)
    ensures skillMd.None? ==> r == []
  {
    match skillMd
    case None => []
    case Some(text) =>
      var cmds := FencedCommands(text);
      var r := KnownCommands(cmds, known);
      assert forall i :: 0 <= i < |r| ==> r[i] in cmds;
      r
  }

  /** Whether `cmd` mentions one of `known`, searched the way the loop does. */
  method MentionsKnown(cmd: string, known: seq<string>) returns (found: bool)
    ensures found <==> exists k :: 0 <= k < |known| && Contains(cmd, known[k])
  {
    found := false;
    var k := 0;
    while k < |known|
      invariant 0 <= k <= |known|
      invariant !found && forall j :: 0 <= j < k ==> !Contains(cmd, known[j])
    {
      if Contains(cmd, known[k]) {
        found := true;
        return;
      }
      k := k + 1;
    }
  }

  /** The command extraction of the audit, line by line. */
  method ExtractCommands(skillMd: Option<string>, known: seq<string>) returns (valid: seq<string>)
    ensures valid == SkillCommands(skillMd, known)
  {
    if skillMd.None? {
      return [];
    }
    var lines := Split(skillMd.value, "\n");
    var inFence := false;
    var blockSize: nat := 0;
    var commands: seq<string> := [];
    var i := 0;
    while i < |lines|
      invariant 0 <= i <= |lines|
      invariant FenceScan(inFence, blockSize, commands) == ScanFrom(Start, lines[..i])
    {
      var line := lines[i];
      ScanPrefixStep(Start, lines, i);
      inFence, blockSize, commands := ScanOne(inFence, blockSize, commands, line);
      i := i + 1;
    }
    assert lines[..i] == lines;
    valid := KeepKnown(commands, known);
  }

  /** The body of the extraction's line loop. */
  method ScanOne(inFence: bool, blockSize: nat, commands: seq<string>, line: string)
    returns (inFence': bool, blockSize': nat, commands': seq<string>)
    ensures FenceScan(inFence', blockSize', commands') == ScanLine(FenceScan(inFence, blockSize, commands), line)
  {
    inFence', blockSize', commands' := inFence, blockSize, commands;
    var s := Strip(line);
    if s == Fence {
      inFence', blockSize' := false, 0;
    } else if StartsWith(s, Fence) {
      inFence', blockSize' := true, 0;
    } else if inFence {
      blockSize' := blockSize + |line| + 1;
      if blockSize' <= MaxCmdBlockSize {
        var clean := CleanLine(line);
        if |clean| <= MaxCmdLineLen && IsCommandLine(clean) {
          commands' := commands + [clean];
        }
      }
    }
  }

  /** The second loop of the extraction: keep the commands naming a known script. */
  method KeepKnown(commands: seq<string>, known: seq<string>) returns (valid: seq<string>)
    ensures valid == KnownCommands(commands, known)
  {
    valid := [];
    var j := 0;
    while j < |commands|
      invariant 0 <= j <= |commands|
      invariant valid == KnownCommands(commands[..j], known)
    {
      var cmd := commands[j];
      assert commands[..j + 1][..j] == commands[..j];
      if Contains(cmd, "scripts/") {
        var found := MentionsKnown(cmd, known);
        if found {
          valid := valid + [cmd];
        }
      }
      j := j + 1;
    }
    assert commands[..j] == commands;
  }
}
