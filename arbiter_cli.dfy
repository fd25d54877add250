// The Arbiter command line: three subcommands that validate their arguments,
// make sure the queue directories exist, and report that they are not yet
// implemented.
module ArbiterCli {
  import opened Wrappers
  import opened Text

  const DescriptionMax: nat := 1024
  const TagMax: nat := 128
  const PlanIdMax: nat := 256

  /** Python's `type(x).__name__` for the values an argument can hold. */
  function TypeName(j: Json): string
  {
    match j
    case JNull => "NoneType"
    case JBool(_) => "bool"
    case JInt(_) => "int"
    case JReal(_) => "float"
    case JStr(_) => "str"
    case JList(_) => "list"
    case JObj(_) => "dict"
  }

  /** `_sanitize`: a string with its whitespace runs collapsed to single spaces,
      no longer than `maxLen` after collapsing, and not empty. */
  function Sanitize(s: Json, maxLen: nat, name: string): (r: Result<string>)
    ensures r.Ok? <==> s.JStr? && |Collapse(s.s)| <= maxLen && !AllSpace(s.s)
    ensures r.Ok? ==> r.value == Collapse(s.s) && r.value != [] && |r.value| <= maxLen
    ensures r.Ok? ==> Collapsed(r.value) && !IsSpace(r.value[0]) && !IsSpace(r.value[|r.value| - 1])
  {
    if !s.JStr? then Err(name + ": expected string, got " + TypeName(s))
    else
      var c := Collapse(s.s);
      CollapseProperties(s.s);
      CollapseEmpty(s.s);
      CollapsedStrip(c);
      StripEmpty(c);
      if |c| > maxLen then Err(name + ": length " + NatToStr(|c|) + " exceeds max " + NatToStr(maxLen))
      else if Strip(c) == [] then Err(name + ": empty after trim")
      else Ok(Strip(c))
  }

  /** A validated value passes validation again unchanged. */
  lemma SanitizeIdempotent(s: Json, maxLen: nat, name: string)
    requires Sanitize(s, maxLen, name).Ok?
    ensures Sanitize(JStr(Sanitize(s, maxLen, name).value), maxLen, name) == Sanitize(s, maxLen, name)
  {
    var v := Sanitize(s, maxLen, name).value;
    CollapseIdempotent(s.s);
    CollapseEmpty(v);
  }

  /** The limit applies to the collapsed text, so a long run of spaces does not
      count against it. */
  lemma LimitAfterCollapse(word: string, pad: nat)
    requires word != [] && |word| <= TagMax && NoSpace(word)
    ensures Sanitize(JStr(word + seq(pad, _ => ' ')), TagMax, "tag") == Ok(word)
  {
    var s := word + seq(pad, _ => ' ');
    SpacesAfterWord(word, pad);
    assert !AllSpace(s) by {
      assert s[0] == word[0];
    }
  }

  lemma {:induction false} SpacesAfterWord(word: string, pad: nat)
    requires word != [] && NoSpace(word)
    ensures Collapse(word + seq(pad, _ => ' ')) == word
  {
    var s := word + seq(pad, _ => ' ');
    WordLenIs(s, |word|);
    assert s[..|word|] == word;
    assert s[|word|..] == seq(pad, _ => ' ');
    WordsEmpty(s[|word|..]);
    assert Words(s) == [word];
  }

  // ---------------------------------------------------------------------
  // Subcommands and the exit code of main

  datatype Command =
    | Push(tag: Json, title: Json)
    | Get(planId: Json)
    | Status(planId: Json)

  /** Outcome of a subcommand: its return code, or the message of the
      exception it raised. `queueOk` says whether creating the queue
      directories succeeded. */
  function Run(cmd: Command, queueOk: bool): (r: Result<int>)
    ensures r.Ok? ==> r.value == 1
    ensures r.Ok? <==> queueOk && match cmd
      case Push(tag, title) => Sanitize(tag, TagMax, "tag").Ok? && Sanitize(title, DescriptionMax, "title").Ok?
      case Get(id) => Sanitize(id, PlanIdMax, "plan_id").Ok?
      case Status(id) => Sanitize(id, PlanIdMax, "plan_id").Ok?
    ensures cmd.Push? && Sanitize(cmd.tag, TagMax, "tag").Err? ==> r == Err(Sanitize(cmd.tag, TagMax, "tag").error)
  {
    match cmd
    case Push(tag, title) =>
      var t := Sanitize(tag, TagMax, "tag");
      if t.Err? then Err(t.error)
      else
        var ti := Sanitize(title, DescriptionMax, "title");
        if ti.Err? then Err(ti.error)
        else if !queueOk then Err("OSError")
        else Ok(1)
    case Get(id) =>
      var p := Sanitize(id, PlanIdMax, "plan_id");
      if p.Err? then Err(p.error) else if !queueOk then Err("OSError") else Ok(1)
    case Status(id) =>
      var p := Sanitize(id, PlanIdMax, "plan_id");
      if p.Err? then Err(p.error) else if !queueOk then Err("OSError") else Ok(1)
  }

  /** `main`: every exception from a subcommand becomes exit code 2. */
  function ExitCode(cmd: Command, queueOk: bool): (code: int)
    ensures code == 1 || code == 2
    ensures code == 1 <==> Run(cmd, queueOk).Ok?
  {
    match Run(cmd, queueOk)
    case Ok(c) => c
    case Err(_) => 2
  }
}
