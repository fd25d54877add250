// The argument vectors the deep analysis runs for one skill script: its
// `--help`, `--help` of each subcommand, and the documented commands that
// carry a flag known not to change anything.
module AuditInvocations {
  import opened Wrappers
  import opened Text
  import opened Seqs
  import opened AuditCommands
  import opened AuditHelp

  type Argv = seq<string>

  /** A documented command is run only when it carries one of these flags. */
  predicate HasSafeFlag(cmd: string)
  {
    Contains(cmd, "--help") || Contains(cmd, "--list") || Contains(cmd, "--dry-run") || Contains(cmd, "--no-op")
  }

  function BaseHelp(exe: string, scriptRel: string): (a: Argv)
    ensures |a| == 3 && a[0] == exe && a[1] == scriptRel
  {
    [exe, scriptRel, "--help"]
  }

  function SubHelp(exe: string, scriptRel: string, sub: string): (a: Argv)
    ensures |a| == 4 && a[0] == exe && a[1] == scriptRel && a[2] == sub
  {
    [exe, scriptRel, sub, "--help"]
  }

  function SubInvocations(exe: string, scriptRel: string, subs: seq<string>): (r: seq<Argv>)
    ensures |r| == |subs|
    ensures forall i :: 0 <= i < |subs| ==> r[i] == SubHelp(exe, scriptRel, subs[i])
  {
    seq(|subs|, i requires 0 <= i < |subs| => SubHelp(exe, scriptRel, subs[i]))
  }

  /** A first word naming the interpreter, compared after lower-casing. */
  predicate IsPythonWord(w: string)
  {
    Lower(w) == "python" || Lower(w) == "python3"
  }

  /** The argument vector a documented command turns into, if it passes the
      gate: it must mention the script and a safe flag, have a word, and the
      resulting vector must hold the script path as one of its arguments. */
  function DocArgv(exe: string, scriptRel: string, cmd: string): (r: Option<Argv>)
    ensures r.Some? ==> Contains(cmd, scriptRel) && HasSafeFlag(cmd)
    ensures r.Some? ==> |r.value| >= 1 && r.value[0] == exe && scriptRel in r.value
    ensures r.Some? ==> Words(cmd) != []
  {
    if !Contains(cmd, scriptRel) || !HasSafeFlag(cmd) then None
    else
      var parts := Words(cmd);
      if parts == [] then None
      else
        var argv := if IsPythonWord(parts[0]) then [exe] + parts[1..] else [exe, scriptRel] + parts;
        if scriptRel in argv then Some(argv) else None
  }

  /** Both directions of the gate. */
  lemma DocArgvGate(exe: string, scriptRel: string, cmd: string)
    ensures DocArgv(exe, scriptRel, cmd).Some? <==>
      Contains(cmd, scriptRel) && HasSafeFlag(cmd) && Words(cmd) != [] &&
      (!IsPythonWord(Words(cmd)[0]) || scriptRel == exe || scriptRel in Words(cmd)[1..])
  {
    if Contains(cmd, scriptRel) && HasSafeFlag(cmd) && Words(cmd) != [] {
      var parts := Words(cmd);
      if IsPythonWord(parts[0]) {
        var argv := [exe] + parts[1..];
        assert scriptRel in argv <==> scriptRel == exe || scriptRel in parts[1..];
      }
    }
  }

  /** A leading `python`/`python3` is replaced by the interpreter; any other
      first word is kept and the interpreter and script are put in front. */
  lemma DocArgvShape(exe: string, scriptRel: string, cmd: string)
    requires DocArgv(exe, scriptRel, cmd).Some?
    ensures IsPythonWord(Words(cmd)[0]) ==> DocArgv(exe, scriptRel, cmd).value == [exe] + Words(cmd)[1..]
    ensures !IsPythonWord(Words(cmd)[0]) ==> DocArgv(exe, scriptRel, cmd).value == [exe, scriptRel] + Words(cmd)
  {
  }

  /** What one documented command contributes: its vector, or nothing. */
  function DocOne(exe: string, scriptRel: string, cmd: string): (r: seq<Argv>)
    ensures |r| <= 1 && (r != [] <==> DocArgv(exe, scriptRel, cmd).Some?)
    ensures r != [] ==> r[0] == DocArgv(exe, scriptRel, cmd).value
  {
    match DocArgv(exe, scriptRel, cmd)
    case Some(a) => [a]
    case None => []
  }

  function DocArgvs(exe: string, scriptRel: string, cmds: seq<string>): (r: seq<Argv>)
    ensures |r| <= |cmds|
    decreases |cmds|
  {
    if cmds == [] then [] else DocArgvs(exe, scriptRel, cmds[..|cmds| - 1]) + DocOne(exe, scriptRel, cmds[|cmds| - 1])
  }

  /** Every documented vector comes from a command that passed the gate. */
  lemma {:induction false} DocArgvsOrigin(exe: string, scriptRel: string, cmds: seq<string>, i: nat)
    requires i < |DocArgvs(exe, scriptRel, cmds)|
    ensures exists c :: c in cmds && DocArgv(exe, scriptRel, c) == Some(DocArgvs(exe, scriptRel, cmds)[i])
    decreases |cmds|
  {
    var init, c := cmds[..|cmds| - 1], cmds[|cmds| - 1];
    var r := DocArgvs(exe, scriptRel, init);
    if i < |r| {
      DocArgvsOrigin(exe, scriptRel, init, i);
      var x :| x in init && DocArgv(exe, scriptRel, x) == Some(r[i]);
      assert x in cmds;
    } else {
      assert DocArgvs(exe, scriptRel, cmds)[i] == DocOne(exe, scriptRel, c)[0];
    }
  }

  lemma DocArgvsSnoc(exe: string, scriptRel: string, cmds: seq<string>, c: string)
    ensures DocArgvs(exe, scriptRel, cmds + [c]) ==
      DocArgvs(exe, scriptRel, cmds) + DocOne(exe, scriptRel, c)
  {
    assert (cmds + [c])[..|cmds|] == cmds;
  }

  /** The subcommand names read from the help text; `None` stands for a help
      run that timed out or could not start, which contributes none. */
  function HelpSubcommands(help: Option<string>): (r: seq<string>)
    ensures NoDup(r)
    ensures help.None? ==> r == []
  {
    match help
    case None => []
    case Some(out) => Subcommands(out)
  }

  /** The list before the documented commands: base help, then one help per
      subcommand. */
  function HelpInvocations(exe: string, scriptRel: string, subs: seq<string>): (r: seq<Argv>)
    requires NoDup(subs)
    ensures NoDup(r) && |r| == |subs| + 1 && r[0] == BaseHelp(exe, scriptRel)
  {
    var r := [BaseHelp(exe, scriptRel)] + SubInvocations(exe, scriptRel, subs);
    forall i, j | 0 <= i < j < |r| ensures r[i] != r[j] {
      if i > 0 {
        assert r[i] == SubHelp(exe, scriptRel, subs[i - 1]);
        assert r[j] == SubHelp(exe, scriptRel, subs[j - 1]);
        assert r[i][2] == subs[i - 1] && r[j][2] == subs[j - 1];
      } else {
        assert |r[i]| == 3 && |r[j]| == 4;
      }
    }
    r
  }

  /** The invocations of one script: the base help alone when the script file
      is missing, and otherwise every candidate once, in the order it was
      first produced. */
  function Invocations(exe: string, scriptRel: string, scriptExists: bool, help: Option<string>,
                       commands: seq<string>): (r: seq<Argv>)
    ensures !scriptExists ==> r == [BaseHelp(exe, scriptRel)]
    ensures r != [] && r[0] == BaseHelp(exe, scriptRel)
    ensures NoDup(r)
  {
    if !scriptExists then [BaseHelp(exe, scriptRel)]
    else
      var pre := HelpInvocations(exe, scriptRel, HelpSubcommands(help));
      var all := pre + DocArgvs(exe, scriptRel, commands);
      var r := Dedup(all);
      assert all[0] == pre[0];
      assert r[0] == all[0] by {
        AddAllIsDedup(pre, DocArgvs(exe, scriptRel, commands));
        AddAllKeepsPrefix(pre, DocArgvs(exe, scriptRel, commands));
      }
      r
  }

  /** Adding elements leaves the accumulator in front. */
  lemma {:induction false} AddAllKeepsPrefix<T>(acc: seq<T>, xs: seq<T>)
    ensures |acc| <= |AddAll(acc, xs)| && AddAll(acc, xs)[..|acc|] == acc
    decreases |xs|
  {
    if xs != [] {
      AddAllKeepsPrefix(acc, xs[..|xs| - 1]);
    }
  }

  /** Every invocation is started by the interpreter and is given the script
      path; each one is the base help, a subcommand's help, or a documented
      command that passed the gate. */
  lemma InvocationOrigins(exe: string, scriptRel: string, scriptExists: bool, help: Option<string>,
                          commands: seq<string>, i: nat)
    requires i < |Invocations(exe, scriptRel, scriptExists, help, commands)|
    ensures var a := Invocations(exe, scriptRel, scriptExists, help, commands)[i];
      |a| >= 1 && a[0] == exe && scriptRel in a &&
      (a == BaseHelp(exe, scriptRel)
       || (exists s :: s in HelpSubcommands(help) && a == SubHelp(exe, scriptRel, s))
       || (exists c :: c in commands && DocArgv(exe, scriptRel, c) == Some(a)))
  {
    var r := Invocations(exe, scriptRel, scriptExists, help, commands);
    var a := r[i];
    if scriptExists {
      var subs := HelpSubcommands(help);
      var pre := HelpInvocations(exe, scriptRel, subs);
      var docs := DocArgvs(exe, scriptRel, commands);
      assert r == Dedup(pre + docs);
      assert a in pre + docs;
      if a in docs {
        var k :| 0 <= k < |docs| && docs[k] == a;
        DocArgvsOrigin(exe, scriptRel, commands, k);
      } else {
        HelpOrigin(exe, scriptRel, subs, a);
      }
    }
  }

  /** A help invocation is the base help or a subcommand's help. */
  lemma HelpOrigin(exe: string, scriptRel: string, subs: seq<string>, a: Argv)
    requires NoDup(subs) && a in HelpInvocations(exe, scriptRel, subs)
    ensures a == BaseHelp(exe, scriptRel) || exists s :: s in subs && a == SubHelp(exe, scriptRel, s)
  {
    var pre := HelpInvocations(exe, scriptRel, subs);
    var k :| 0 <= k < |pre| && pre[k] == a;
    if k > 0 {
      assert a == SubHelp(exe, scriptRel, subs[k - 1]);
    }
  }

  // ---------------------------------------------------------------------
  // The derivation with its loops

  lemma DocArgvsPrefixStep(exe: string, scriptRel: string, commands: seq<string>, j: nat)
    requires j < |commands|
    ensures DocArgvs(exe, scriptRel, commands[..j + 1]) == DocArgvs(exe, scriptRel, commands[..j]) + DocOne(exe, scriptRel, commands[j])
  {
    assert commands[..j + 1] == commands[..j] + [commands[j]];
    DocArgvsSnoc(exe, scriptRel, commands[..j], commands[j]);
  }

  /** What the documented-command loop does with one command. */
  lemma DocPrefixStep(exe: string, scriptRel: string, pre: seq<Argv>, commands: seq<string>, j: nat, acc: seq<Argv>)
    requires j < |commands| && acc == AddAll(pre, DocArgvs(exe, scriptRel, commands[..j]))
    ensures AddAll(pre, DocArgvs(exe, scriptRel, commands[..j + 1])) ==
      if DocOne(exe, scriptRel, commands[j]) == [] then acc else AddNew(acc, DocOne(exe, scriptRel, commands[j])[0])
  {
    DocArgvsPrefixStep(exe, scriptRel, commands, j);
    AddAllStep(pre, DocArgvs(exe, scriptRel, commands[..j]), DocOne(exe, scriptRel, commands[j]),
               DocArgvs(exe, scriptRel, commands[..j + 1]), acc);
  }

  /** `_derive_invocations_for_script`: the help run and the SKILL.md text are
      given as values (`help` is `None` when the run timed out or could not
      start); `known` is the skill's list of discovered scripts. */
  method DeriveInvocations(exe: string, scriptRel: string, scriptExists: bool, help: Option<string>,
                           skillMd: Option<string>, known: seq<string>) returns (unique: seq<Argv>)
    ensures unique == Invocations(exe, scriptRel, scriptExists, help, SkillCommands(skillMd, known))
  {
    var base := BaseHelp(exe, scriptRel);
    if !scriptExists {
      return [base];
    }
    var subs: seq<string> := [];
    if help.Some? {
      subs := ParseSubcommands(help.value);
    }
    assert subs == HelpSubcommands(help);
    var invocations := AddHelpInvocations(exe, scriptRel, subs);
    ghost var pre := HelpInvocations(exe, scriptRel, subs);
    var commands := ExtractCommands(skillMd, known);
    invocations := AddDocInvocations(exe, scriptRel, invocations, commands);
    unique := SeenFilter(invocations);
    AddAllIsDedup(pre, DocArgvs(exe, scriptRel, commands));
  }

  /** The base help followed by one help run per subcommand, in order. */
  method AddHelpInvocations(exe: string, scriptRel: string, subs: seq<string>) returns (invocations: seq<Argv>)
    requires NoDup(subs)
    ensures invocations == HelpInvocations(exe, scriptRel, subs)
  {
    invocations := [BaseHelp(exe, scriptRel)];
    var k := 0;
    while k < |subs|
      invariant 0 <= k <= |subs|
      invariant invocations == [BaseHelp(exe, scriptRel)] + SubInvocations(exe, scriptRel, subs[..k])
    {
      invocations := invocations + [SubHelp(exe, scriptRel, subs[k])];
      k := k + 1;
    }
    assert subs[..k] == subs;
  }

  /** The documented-command loop: each command that passes the gate is
      appended unless an equal vector is already listed. */
  method AddDocInvocations(exe: string, scriptRel: string, pre: seq<Argv>, commands: seq<string>)
    returns (invocations: seq<Argv>)
    ensures invocations == AddAll(pre, DocArgvs(exe, scriptRel, commands))
  {
    invocations := pre;
    var j := 0;
    while j < |commands|
      invariant 0 <= j <= |commands|
      invariant invocations == AddAll(pre, DocArgvs(exe, scriptRel, commands[..j]))
    {
      var cmd := commands[j];
      DocPrefixStep(exe, scriptRel, pre, commands, j, invocations);
      j := j + 1;
      if !Contains(cmd, scriptRel) || !HasSafeFlag(cmd) {
        continue;
      }
      var parts := Words(cmd);
      if parts == [] {
        continue;
      }
      var argv := if IsPythonWord(parts[0]) then [exe] + parts[1..] else [exe, scriptRel] + parts;
      if scriptRel in argv && argv !in invocations {
        invocations := invocations + [argv];
      }
    }
    assert commands[..j] == commands;
  }

  /** The final pass: keep each vector the first time it is seen. */
  method SeenFilter(invocations: seq<Argv>) returns (unique: seq<Argv>)
    ensures unique == Dedup(invocations)
    ensures NoDup(invocations) ==> unique == invocations
  {
    var seen: set<Argv> := {};
    unique := [];
    var k := 0;
    while k < |invocations|
      invariant 0 <= k <= |invocations|
      invariant unique == Dedup(invocations[..k])
      invariant forall a :: a in seen <==> a in unique
    {
      var argv := invocations[k];
      DedupPrefixStep(invocations, k);
      if argv !in seen {
        seen := seen + {argv};
        unique := unique + [argv];
      }
      k := k + 1;
    }
    assert invocations[..k] == invocations;
    if NoDup(invocations) {
      DedupOfNoDup(invocations);
    }
  }
}
