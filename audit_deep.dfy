// The deep analysis of the framework audit: for every skill directory with
// scripts and a sandbox, run each derived invocation, classify its outcome,
// record evidence, keep a trace file for each failing run and pack the trace
// files into an archive.  Processes, the clock and the filesystem are given
// as a `World` of recorded answers.
module AuditDeep {
  import opened Wrappers
  import opened Text
  import opened Seqs
  import opened AuditSanitize
  import opened AuditCommands
  import opened AuditInvocations

  const PassSnippetMax: nat := 500
  const OutputSnippetMax: nat := 2000

  // ---------------------------------------------------------------------
  // Outcome of one run

  /** What starting a process can end in: it ran to its exit, it was stopped
      at the timeout, or it could not start (the error's text). */
  datatype RunOutcome = Completed(returncode: int, stdout: string, stderr: string)
                      | TimedOut
                      | SpawnFailed(message: string)

  datatype RunResult = RunResult(returncode: int, stdout: string, stderr: string)

  /** The result record the analysis works with; a timeout or a start failure
      becomes exit code -1 with an explanatory standard error. */
  function Observe(o: RunOutcome): (r: RunResult)
    ensures !o.Completed? ==> r.returncode == -1 && r.stdout == []
    ensures o.TimedOut? ==> r.stderr == "timeout"
    ensures o.SpawnFailed? ==> r.stderr == o.message
  {
    match o
    case Completed(rc, out, err) => RunResult(rc, out, err)
    case TimedOut => RunResult(-1, "", "timeout")
    case SpawnFailed(msg) => RunResult(-1, "", msg)
  }

  datatype Status = Pass | Fail | Unvalidated | Skipped

  /** The classification of a run, with the third branch the code keeps
      although the first two cover every case. */
  function Classify(returncode: int, stderr: string): (s: Status)
    ensures s == Pass <==> returncode == 0 && !Contains(stderr, "Traceback")
    ensures s == Fail <==> returncode != 0 || Contains(stderr, "Traceback")
    ensures s != Unvalidated && s != Skipped
  {
    var traceback := Contains(stderr, "Traceback");
    if returncode == 0 && !traceback then Pass
    else if returncode != 0 || traceback then Fail
    else Unvalidated
  }

  /** A run that timed out or could not start is a failure. */
  lemma UnfinishedRunFails(o: RunOutcome)
    requires !o.Completed?
    ensures Classify(Observe(o).returncode, Observe(o).stderr) == Fail
  {
  }

  /** The stored snippet of a stream: the text kept for the report (cut at 500
      for a pass), cut once more at 500 for a pass and at 2000 otherwise. */
  function Snippet(status: Status, text: string): (r: string)
    ensures |r| <= |text| && r == text[..|r|]
    ensures status == Pass ==> r == Take(text, PassSnippetMax)
    ensures status != Pass ==> r == Take(text, OutputSnippetMax)
  {
    var kept := if status == Pass then Take(text, PassSnippetMax) else text;
    if status == Pass then Take(kept, PassSnippetMax) else Take(kept, OutputSnippetMax)
  }

  // ---------------------------------------------------------------------
  // Trace file names

  /** UTC time of a run, as the clock reports it. */
  datatype DateTime = DateTime(year: nat, month: nat, day: nat, hour: nat, minute: nat, second: nat)

  predicate IsStampChar(c: char) { IsAsciiDigit(c) || c == '_' }

  lemma StampChars(a: string, b: string)
    requires forall i :: 0 <= i < |a| ==> IsStampChar(a[i])
    requires forall i :: 0 <= i < |b| ==> IsStampChar(b[i])
    ensures forall i :: 0 <= i < |a + b| ==> IsStampChar((a + b)[i])
  {
    forall i | 0 <= i < |a + b| ensures IsStampChar((a + b)[i]) {
      if i < |a| {
        assert (a + b)[i] == a[i];
      } else {
        assert (a + b)[i] == b[i - |a|];
      }
    }
  }

  /** `strftime("%Y%m%d_%H%M%S")`: digits and one underscore. */
  function Stamp(t: DateTime): (r: string)
    ensures forall i :: 0 <= i < |r| ==> IsStampChar(r[i])
  {
    var date := NatToStr(t.year) + Pad2(t.month) + Pad2(t.day);
    var time := Pad2(t.hour) + Pad2(t.minute) + Pad2(t.second);
    StampChars(NatToStr(t.year), Pad2(t.month));
    StampChars(NatToStr(t.year) + Pad2(t.month), Pad2(t.day));
    StampChars(Pad2(t.hour), Pad2(t.minute));
    StampChars(Pad2(t.hour) + Pad2(t.minute), Pad2(t.second));
    StampChars(date, "_");
    StampChars(date + "_", time);
    date + "_" + time
  }

  /** The file name of a trace: `<stamp>_<NN>_run.log`. */
  function TraceName(t: DateTime, runIndex: nat): (r: string)
    ensures '/' !in r && !Contains(r, "..") && r != []
  {
    var head := Stamp(t) + "_" + Pad2(runIndex);
    StampChars(Stamp(t), "_");
    StampChars(Stamp(t) + "_", Pad2(runIndex));
    var r := head + "_run.log";
    assert forall i :: 0 <= i < |r| && r[i] == '.' ==> i == |head| + 4 by {
      forall i | 0 <= i < |r| && i != |head| + 4 ensures r[i] != '.' {
        if i < |head| {
          assert r[i] == head[i];
        }
      }
    }
    assert NoDotDot(r);
    NoDotDotIff(r);
    r
  }

  /** What names a trace: the run's skill, script, clock reading and index. */
  datatype TraceRef = TraceRef(skillId: string, scriptRel: string, time: DateTime, runIndex: nat)

  /** The path of a trace inside the staging directory and the archive. */
  function TraceRel(t: TraceRef): string
  {
    SanitizeSkillIdAsWritten(t.skillId) + "/" + SanitizeScriptRel(t.scriptRel) + "/" + TraceName(t.time, t.runIndex)
  }

  /** A trace path has exactly three components: the cleaned skill id, the
      cleaned script path and the file name. */
  lemma TraceRelParts(t: TraceRef)
    ensures Split(TraceRel(t), "/")
      == [SanitizeSkillIdAsWritten(t.skillId), SanitizeScriptRel(t.scriptRel), TraceName(t.time, t.runIndex)]
  {
    ThreeParts(SanitizeSkillIdAsWritten(t.skillId), SanitizeScriptRel(t.scriptRel), TraceName(t.time, t.runIndex));
  }

  /** A blank skill id leaves the first component empty, so the path would
      start at the root; no caller passes one. */
  lemma BlankIdTraceAbsolute(t: TraceRef)
    requires t.skillId == " "
    ensures TraceRel(t)[0] == '/'
  {
    AsWrittenBlankIdIsEmpty();
  }

  lemma ThreeParts(a: string, b: string, c: string)
    requires '/' !in a && '/' !in b && '/' !in c
    ensures Split(a + "/" + b + "/" + c, "/") == [a, b, c]
  {
    assert a + "/" + b + "/" + c == a + ['/'] + (b + ['/'] + c);
    SplitAtFirst(a, '/', b + ['/'] + c);
    SplitAtFirst(b, '/', c);
    ContainsChar(c, '/');
    SplitAbsent(c, "/");
  }

  // ---------------------------------------------------------------------
  // The world the analysis observes

  datatype Script = Script(rel: string, present: bool, help: Option<string>)

  /** The sandbox helper's run for a skill: its exit and output, or a timeout
      or start failure. */
  datatype SandboxRun = SandboxExited(returncode: int, stdout: string) | SandboxFailed

  /** An entry of the skills directory, in listing order. */
  datatype Entry = Entry(name: string, isDir: bool, scripts: seq<Script>, skillMd: Option<string>,
                         sandbox: SandboxRun)

  /** Everything the analysis reads from outside: whether the staging
      directory could be made and the sandbox helper exists, the skill
      entries, and, by the number of runs before it, each run's outcome, its
      clock reading, whether its trace write succeeds; whether the archive
      could be written, and, by its position among the created trace files,
      whether adding each one to the archive succeeds. */
  datatype World = World(exe: string, stagingOk: bool, toolPresent: bool, entries: seq<Entry>,
                         exec: nat -> RunOutcome, now: nat -> DateTime, writeOk: nat -> bool, tarOk: bool,
                         addOk: nat -> bool)

  /** The sandbox directory: the last line of the helper's trimmed output, trimmed. */
  function SandboxDir(stdout: string): (r: string)
    ensures r != [] ==> !IsSpace(r[0]) && !IsSpace(r[|r| - 1])
  {
    var lines := Split(Strip(stdout), "\n");
    Strip(lines[|lines| - 1])
  }

  /** Whether the analysis goes into a skill entry at all. */
  predicate SkillRuns(e: Entry)
  {
    e.isDir && StartsWith(e.name, "localsetup-") && e.scripts != [] &&
    e.sandbox.SandboxExited? && e.sandbox.returncode == 0 && SandboxDir(e.sandbox.stdout) != []
  }

  /** The scripts that `SKILL.md` commands may name: the discovered ones that exist. */
  function KnownScripts(scripts: seq<Script>): (r: seq<string>)
    ensures forall i :: 0 <= i < |r| ==> exists k :: 0 <= k < |scripts| && scripts[k].present && scripts[k].rel == r[i]
    decreases |scripts|
  {
    if scripts == [] then []
    else
      var init, s := scripts[..|scripts| - 1], scripts[|scripts| - 1];
      var r := KnownScripts(init);
      assert forall k :: 0 <= k < |init| ==> init[k] == scripts[k];
      r + (if s.present then [s.rel] else [])
  }

  /** One planned run: whose script, which vector, and its index among the
      runs of that script. */
  datatype Planned = Planned(skillId: string, scriptRel: string, argv: Argv, runIndex: nat)

  /** The runs of one script's invocations, numbered from zero. */
  function PlanOf(skillId: string, scriptRel: string, invs: seq<Argv>): (r: seq<Planned>)
    ensures |r| == |invs| && forall k :: 0 <= k < |r| ==> r[k] == Planned(skillId, scriptRel, invs[k], k)
  {
    seq(|invs|, k requires 0 <= k < |invs| => Planned(skillId, scriptRel, invs[k], k))
  }

  /** The planned runs of a script of a skill entry: its invocations, in order. */
  function ScriptPlan(exe: string, e: Entry, s: Script): (r: seq<Planned>)
    ensures |r| >= 1
    ensures forall k :: 0 <= k < |r| ==> r[k].skillId == e.name && r[k].scriptRel == s.rel && r[k].runIndex == k
    ensures r[0].argv == BaseHelp(exe, s.rel)
  {
    PlanOf(e.name, s.rel, Invocations(exe, s.rel, s.present, s.help, SkillCommands(e.skillMd, KnownScripts(e.scripts))))
  }

  function ScriptsPlan(exe: string, e: Entry, scripts: seq<Script>): (r: seq<Planned>)
    ensures forall k :: 0 <= k < |r| ==> r[k].skillId == e.name
    decreases |scripts|
  {
    if scripts == [] then []
    else ScriptsPlan(exe, e, scripts[..|scripts| - 1]) + ScriptPlan(exe, e, scripts[|scripts| - 1])
  }

  function EntryPlan(exe: string, e: Entry): (r: seq<Planned>)
    ensures !SkillRuns(e) ==> r == []
    ensures forall k :: 0 <= k < |r| ==> r[k].skillId == e.name
  {
    if SkillRuns(e) then ScriptsPlan(exe, e, e.scripts) else []
  }

  function EntriesPlan(exe: string, entries: seq<Entry>): seq<Planned>
    decreases |entries|
  {
    if entries == [] then [] else EntriesPlan(exe, entries[..|entries| - 1]) + EntryPlan(exe, entries[|entries| - 1])
  }

  // ---------------------------------------------------------------------
  // Evidence

  datatype Evidence = Evidence(skillId: string, scriptRel: string, argv: Argv, exitCode: int, status: Status,
                               stdoutSnippet: string, stderrSnippet: string, trace: Option<TraceRef>)

  /** The record's `trace_file` field: the trace path, or empty when no trace was kept. */
  function TraceFile(e: Evidence): (r: string)
    ensures r != [] <==> e.trace.Some?
  {
    if e.trace.Some? then TraceRel(e.trace.value) else ""
  }

  /** The record of planned run `p`, the `n`-th run of the analysis. */
  function EvidenceOf(w: World, p: Planned, n: nat): (e: Evidence)
    ensures e.skillId == p.skillId && e.scriptRel == p.scriptRel && e.argv == p.argv
    ensures e.status == Pass || e.status == Fail
    ensures e.status == Pass ==> |e.stdoutSnippet| <= PassSnippetMax && |e.stderrSnippet| <= PassSnippetMax
    ensures |e.stdoutSnippet| <= OutputSnippetMax && |e.stderrSnippet| <= OutputSnippetMax
    ensures e.trace.Some? <==> e.status == Fail && w.writeOk(n)
    ensures e.trace.Some? ==> e.trace.value == TraceRef(p.skillId, p.scriptRel, w.now(n), p.runIndex)
  {
    var r := Observe(w.exec(n));
    var status := Classify(r.returncode, r.stderr);
    Evidence(p.skillId, p.scriptRel, p.argv, r.returncode, status, Snippet(status, r.stdout), Snippet(status, r.stderr),
             if status != Pass && w.writeOk(n) then Some(TraceRef(p.skillId, p.scriptRel, w.now(n), p.runIndex)) else None)
  }

  function RecordOf(w: World): (Planned, nat) -> Evidence
  {
    (p: Planned, n: nat) => EvidenceOf(w, p, n)
  }

  /** The records of the runs of `plan`, numbered from `first`. */
  function EvidenceFrom(w: World, plan: seq<Planned>, first: nat): (r: seq<Evidence>)
    ensures |r| == |plan|
  {
    MapFrom(RecordOf(w), plan, first)
  }

  lemma EvidenceFromAt(w: World, plan: seq<Planned>, first: nat, k: nat)
    requires k < |plan|
    ensures EvidenceFrom(w, plan, first)[k] == EvidenceOf(w, plan[k], first + k)
  {
    MapFromAt(RecordOf(w), plan, first, k);
  }

  lemma EvidenceFromAppend(w: World, a: seq<Planned>, b: seq<Planned>, first: nat)
    ensures EvidenceFrom(w, a + b, first) == EvidenceFrom(w, a, first) + EvidenceFrom(w, b, first + |a|)
  {
    MapFromAppend(RecordOf(w), a, b, first);
  }

  /** The trace files written, in order: the non-empty trace paths. */
  function Traced(ev: seq<Evidence>): (r: seq<TraceRef>)
    decreases |ev|
  {
    if ev == [] then []
    else Traced(ev[..|ev| - 1]) + (if ev[|ev| - 1].trace.Some? then [ev[|ev| - 1].trace.value] else [])
  }

  /** Each written trace comes from a record naming it. */
  lemma {:induction false} TracedOrigin(ev: seq<Evidence>, i: nat)
    requires i < |Traced(ev)|
    ensures exists k :: 0 <= k < |ev| && ev[k].trace == Some(Traced(ev)[i])
    decreases |ev|
  {
    var init := ev[..|ev| - 1];
    if i < |Traced(init)| {
      TracedOrigin(init, i);
      var k :| 0 <= k < |init| && init[k].trace == Some(Traced(init)[i]);
      assert ev[k] == init[k];
    } else {
      assert Traced(ev)[i] == ev[|ev| - 1].trace.value;
    }
  }

  lemma {:induction false} TracedAppend(a: seq<Evidence>, b: seq<Evidence>)
    ensures Traced(a + b) == Traced(a) + Traced(b)
    decreases |b|
  {
    if b == [] {
      assert a + b == a;
    } else {
      assert (a + b)[..|a + b| - 1] == a + b[..|b| - 1];
      TracedAppend(a, b[..|b| - 1]);
    }
  }

  datatype Summary = Summary(total: nat, pass: nat, fail: nat, unvalidated: nat, skipped: nat)

  const NoSummary := Summary(0, 0, 0, 0, 0)

  predicate IsPass(e: Evidence) { e.status == Pass }
  predicate IsFail(e: Evidence) { e.status == Fail }
  predicate IsUnvalidated(e: Evidence) { e.status == Unvalidated }
  predicate IsSkipped(e: Evidence) { e.status == Skipped }

  function Summarize(ev: seq<Evidence>): (s: Summary)
    ensures s.total == |ev|
  {
    Summary(|ev|, CountIf(ev, IsPass), CountIf(ev, IsFail), CountIf(ev, IsUnvalidated), CountIf(ev, IsSkipped))
  }

  /** The analysis' result: evidence, summary, whether a staging directory
      exists, and the names packed into the archive when one was written. */
  datatype DeepResult = DeepResult(evidence: seq<Evidence>, summary: Summary, staged: bool,
                                   archive: Option<seq<string>>)

  /** The created trace files whose addition to the archive succeeded, in
      order; `added(i)` says whether adding the `i`-th one succeeds. */
  function AddedTraces(refs: seq<TraceRef>, added: nat -> bool): (r: seq<TraceRef>)
    ensures |r| <= |refs|
    decreases |refs|
  {
    if refs == [] then []
    else
      var n := |refs| - 1;
      AddedTraces(refs[..n], added) + (if added(n) then [refs[n]] else [])
  }

  /** Each added trace file is a created one whose addition succeeded. */
  lemma {:induction false} AddedTracesOrigin(refs: seq<TraceRef>, added: nat -> bool, j: nat) returns (i: nat)
    requires j < |AddedTraces(refs, added)|
    ensures i < |refs| && added(i) && AddedTraces(refs, added)[j] == refs[i]
    decreases |refs|
  {
    var n := |refs| - 1;
    var a := AddedTraces(refs[..n], added);
    assert AddedTraces(refs, added) == a + (if added(n) then [refs[n]] else []);
    if j < |a| {
      i := AddedTracesOrigin(refs[..n], added, j);
      assert refs[..n][i] == refs[i];
    } else {
      i := n;
    }
  }

  /** Every created trace file whose addition succeeded is added, at the position returned. */
  lemma {:induction false} AddedTracesComplete(refs: seq<TraceRef>, added: nat -> bool, i: nat) returns (j: nat)
    requires i < |refs| && added(i)
    ensures j < |AddedTraces(refs, added)| && AddedTraces(refs, added)[j] == refs[i]
    decreases |refs|
  {
    var n := |refs| - 1;
    var a := AddedTraces(refs[..n], added);
    assert AddedTraces(refs, added) == a + (if added(n) then [refs[n]] else []);
    if i < n {
      j := AddedTracesComplete(refs[..n], added, i);
      assert refs[..n][i] == refs[i];
      assert AddedTraces(refs, added)[j] == a[j];
    } else {
      j := |a|;
    }
  }

  /** When every addition succeeds, every created trace file is added, in order. */
  lemma {:induction false} AddedTracesAll(refs: seq<TraceRef>, added: nat -> bool)
    requires forall i :: 0 <= i < |refs| ==> added(i)
    ensures AddedTraces(refs, added) == refs
    decreases |refs|
  {
    if refs != [] {
      var n := |refs| - 1;
      AddedTracesAll(refs[..n], added);
      assert refs[..n] + [refs[n]] == refs;
    }
  }

  /** When every addition fails, nothing is added. */
  lemma {:induction false} AddedTracesNone(refs: seq<TraceRef>, added: nat -> bool)
    requires forall i :: 0 <= i < |refs| ==> !added(i)
    ensures AddedTraces(refs, added) == []
    decreases |refs|
  {
    if refs != [] {
      AddedTracesNone(refs[..|refs| - 1], added);
    }
  }

  /** A trace's path, by position (the position is not used). */
  function PathOf(): (TraceRef, nat) -> string
  {
    (t: TraceRef, n: nat) => TraceRel(t)
  }

  /** The member names of the archive: the trace paths of the added trace files, in order. */
  function ArchiveNames(refs: seq<TraceRef>, added: nat -> bool): (r: seq<string>)
    ensures |r| == |AddedTraces(refs, added)|
  {
    MapFrom(PathOf(), AddedTraces(refs, added), 0)
  }


  function Deep(w: World): (r: DeepResult)
    ensures !w.stagingOk ==> r == DeepResult([], NoSummary, false, None)
    ensures w.stagingOk && !w.toolPresent ==> r == DeepResult([], NoSummary, true, None)
    ensures w.stagingOk && w.toolPresent ==> (r.archive.Some? <==> w.tarOk)
    ensures r.archive.Some? ==> r.archive.value == ArchiveNames(Traced(r.evidence), w.addOk)
  {
    if !w.stagingOk then DeepResult([], NoSummary, false, None)
    else if !w.toolPresent then DeepResult([], NoSummary, true, None)
    else
      var ev := EvidenceFrom(w, EntriesPlan(w.exe, w.entries), 0);
      DeepResult(ev, Summarize(ev), true, if w.tarOk then Some(ArchiveNames(Traced(ev), w.addOk)) else None)
  }

  // ---------------------------------------------------------------------
  // Properties of the analysis

  /** The counts add up to the total, and nothing is ever unvalidated or skipped. */
  lemma SummaryCounts(w: World)
    ensures var s := Deep(w).summary;
      s.pass + s.fail + s.unvalidated + s.skipped == s.total == |Deep(w).evidence| &&
      s.unvalidated == 0 && s.skipped == 0 && s.pass + s.fail == s.total
  {
    var ev := Deep(w).evidence;
    if w.stagingOk && w.toolPresent {
      var plan := EntriesPlan(w.exe, w.entries);
      forall k | 0 <= k < |ev| ensures ev[k].status == Pass || ev[k].status == Fail {
        EvidenceFromAt(w, plan, 0, k);
      }
      CountIfNone(ev, IsUnvalidated);
      CountIfNone(ev, IsSkipped);
      CountIfSplit(ev, IsPass, IsFail);
    }
  }

  /** Each record is its run's classification, with its snippet bounds and a
      trace path exactly for failures whose trace was written. */
  lemma EvidenceFacts(w: World, n: nat)
    requires n < |Deep(w).evidence|
    ensures var e := Deep(w).evidence[n];
      var p := EntriesPlan(w.exe, w.entries)[n];
      var r := Observe(w.exec(n));
      e.argv == p.argv && e.exitCode == r.returncode &&
      (e.status == Pass <==> r.returncode == 0 && !Contains(r.stderr, "Traceback")) &&
      (TraceFile(e) != [] <==> e.status == Fail && w.writeOk(n)) &&
      (e.status == Pass ==> |e.stdoutSnippet| <= PassSnippetMax && |e.stderrSnippet| <= PassSnippetMax) &&
      |e.stdoutSnippet| <= OutputSnippetMax && |e.stderrSnippet| <= OutputSnippetMax
  {
    var plan := EntriesPlan(w.exe, w.entries);
    DeepEvidence(w);
    MapFromAt(RecordOf(w), plan, 0, n);
    assert Deep(w).evidence[n] == EvidenceOf(w, plan[n], n);
    RecordFacts(w, plan[n], n);
  }

  /** The records of a run that got past the staging and sandbox checks are those of the whole plan. */
  lemma DeepEvidence(w: World)
    ensures Deep(w).evidence == if w.stagingOk && w.toolPresent then EvidenceFrom(w, EntriesPlan(w.exe, w.entries), 0) else []
  {
  }

  lemma RecordFacts(w: World, p: Planned, n: nat)
    ensures var e := EvidenceOf(w, p, n);
      var r := Observe(w.exec(n));
      e.argv == p.argv && e.exitCode == r.returncode &&
      (e.status == Pass <==> r.returncode == 0 && !Contains(r.stderr, "Traceback")) &&
      (TraceFile(e) != [] <==> e.status == Fail && w.writeOk(n)) &&
      (e.status == Pass ==> |e.stdoutSnippet| <= PassSnippetMax && |e.stderrSnippet| <= PassSnippetMax) &&
      |e.stdoutSnippet| <= OutputSnippetMax && |e.stderrSnippet| <= OutputSnippetMax
  {
  }

  /** A path that resolves inside the directory it is joined to: relative,
      with three components none of which holds `..`. */
  predicate SafeTracePath(name: string)
  {
    name != [] && name[0] != '/' && |Split(name, "/")| == 3 &&
    forall k :: 0 <= k < 3 ==> !Contains(Split(name, "/")[k], "..")
  }

  /** The trace path of a `localsetup-` skill is safe. */
  lemma TraceRelSafe(t: TraceRef)
    requires StartsWith(t.skillId, "localsetup-")
    ensures SafeTracePath(TraceRel(t))
  {
    AsWrittenIdSafe(t.skillId);
    PartsSafe(SanitizeSkillIdAsWritten(t.skillId), SanitizeScriptRel(t.scriptRel), TraceName(t.time, t.runIndex));
  }

  lemma PartsSafe(a: string, b: string, c: string)
    requires a != [] && '/' !in a && '/' !in b && '/' !in c
    requires !Contains(a, "..") && !Contains(b, "..") && !Contains(c, "..")
    ensures SafeTracePath(a + "/" + b + "/" + c)
  {
    ThreeParts(a, b, c);
    assert (a + "/" + b + "/" + c)[0] == a[0];
  }

  /** Every archive member is a three-component relative path with no `..`. */
  lemma ArchiveNamesSafe(w: World, i: nat)
    requires Deep(w).archive.Some? && i < |Deep(w).archive.value|
    ensures SafeTracePath(Deep(w).archive.value[i])
  {
    var ev, plan := Deep(w).evidence, EntriesPlan(w.exe, w.entries);
    var j := AddedTracesOrigin(Traced(ev), w.addOk, i);
    MapFromAt(PathOf(), AddedTraces(Traced(ev), w.addOk), 0, i);
    TracedOrigin(ev, j);
    var k :| 0 <= k < |ev| && ev[k].trace == Some(Traced(ev)[j]);
    EvidenceFromAt(w, plan, 0, k);
    EntriesPlanPrefixed(w.exe, w.entries);
    TraceRelSafe(Traced(ev)[j]);
  }

  /** A run of a `localsetup-` skill. */
  predicate Prefixed(p: Planned) { StartsWith(p.skillId, "localsetup-") }

  /** Every planned run belongs to a `localsetup-` skill. */
  lemma {:induction false} EntriesPlanPrefixed(exe: string, entries: seq<Entry>)
    ensures forall k :: 0 <= k < |EntriesPlan(exe, entries)| ==> Prefixed(EntriesPlan(exe, entries)[k])
    decreases |entries|
  {
    if entries != [] {
      var init, e := entries[..|entries| - 1], entries[|entries| - 1];
      EntriesPlanPrefixed(exe, init);
      var a: seq<Planned>, b: seq<Planned> := EntriesPlan(exe, init), EntryPlan(exe, e);
      assert forall k :: 0 <= k < |b| ==> Prefixed(b[k]) by {
        if SkillRuns(e) {
          assert forall k :: 0 <= k < |b| ==> b[k].skillId == e.name;
        }
      }
      PrefixedConcat(a, b);
    }
  }

  lemma PrefixedConcat(a: seq<Planned>, b: seq<Planned>)
    requires forall k :: 0 <= k < |a| ==> Prefixed(a[k])
    requires forall k :: 0 <= k < |b| ==> Prefixed(b[k])
    ensures forall k :: 0 <= k < |a + b| ==> Prefixed((a + b)[k])
  {
    forall k | 0 <= k < |a + b| ensures Prefixed((a + b)[k]) {
      if k < |a| {
        assert (a + b)[k] == a[k];
      } else {
        assert (a + b)[k] == b[k - |a|];
      }
    }
  }

  /** A skill entry that is not a `localsetup-` directory with scripts and a
      working sandbox contributes no run. */
  lemma SkippedEntryNoRuns(exe: string, entries: seq<Entry>, e: Entry)
    requires !SkillRuns(e)
    ensures EntriesPlan(exe, entries + [e]) == EntriesPlan(exe, entries)
  {
    assert (entries + [e])[..|entries|] == entries;
  }

  // ---------------------------------------------------------------------
  // The analysis as the code performs it

  lemma EntriesPlanSnoc(exe: string, entries: seq<Entry>, e: Entry)
    ensures EntriesPlan(exe, entries + [e]) == EntriesPlan(exe, entries) + EntryPlan(exe, e)
  {
    assert (entries + [e])[..|entries|] == entries;
  }

  lemma ScriptsPlanPrefixStep(exe: string, e: Entry, scripts: seq<Script>, j: nat)
    requires j < |scripts|
    ensures ScriptsPlan(exe, e, scripts[..j + 1]) == ScriptsPlan(exe, e, scripts[..j]) + ScriptPlan(exe, e, scripts[j])
  {
    assert scripts[..j + 1][..j] == scripts[..j];
  }

  lemma ScriptsPlanSnoc(exe: string, e: Entry, scripts: seq<Script>, s: Script)
    ensures ScriptsPlan(exe, e, scripts + [s]) == ScriptsPlan(exe, e, scripts) + ScriptPlan(exe, e, s)
  {
    assert (scripts + [s])[..|scripts|] == scripts;
  }

  /** Running the plan `a` and then the plan `b` gives the records of `a + b`. */
  lemma PlanStep(w: World, a: seq<Planned>, b: seq<Planned>, first: nat, runs: seq<Evidence>, n: nat, more: seq<Evidence>)
    requires runs == EvidenceFrom(w, a, first)
    requires n == first + |a| && more == EvidenceFrom(w, b, n)
    ensures runs + more == EvidenceFrom(w, a + b, first)
  {
    EvidenceFromAppend(w, a, b, first);
  }

  /** `phase_deep_analysis`. */
  method DeepAnalysis(w: World) returns (res: DeepResult)
    ensures res == Deep(w)
  {
    if !w.stagingOk {
      return DeepResult([], NoSummary, false, None);
    }
    if !w.toolPresent {
      return DeepResult([], NoSummary, true, None);
    }
    var evidence: seq<Evidence> := [];
    var created: seq<TraceRef> := [];
    var i := 0;
    while i < |w.entries|
      invariant 0 <= i <= |w.entries|
      invariant evidence == EvidenceFrom(w, EntriesPlan(w.exe, w.entries[..i]), 0)
      invariant created == Traced(evidence)
    {
      var e := w.entries[i];
      ghost var done := EntriesPlan(w.exe, w.entries[..i]);
      ghost var before := evidence;
      assert w.entries[..i + 1] == w.entries[..i] + [e];
      EntriesPlanSnoc(w.exe, w.entries[..i], e);
      evidence, created := RunSkill(w, e, evidence, created);
      PlanStep(w, done, EntryPlan(w.exe, e), 0, before, |before|, evidence[|before|..]);
      i := i + 1;
    }
    assert w.entries[..i] == w.entries;
    var archive: Option<seq<string>> := None;
    if w.tarOk {
      var names := PackArchive(created, w.addOk);
      archive := Some(names);
    }
    res := DeepResult(evidence, Summarize(evidence), true, archive);
  }

  /** The archive loop: each created trace file is added under its trace
      path; one whose addition fails is passed over. */
  method PackArchive(created: seq<TraceRef>, added: nat -> bool) returns (names: seq<string>)
    ensures names == ArchiveNames(created, added)
  {
    names := [];
    ghost var kept: seq<TraceRef> := [];
    var i := 0;
    while i < |created|
      invariant 0 <= i <= |created|
      invariant kept == AddedTraces(created[..i], added)
      invariant names == MapFrom(PathOf(), kept, 0)
    {
      assert created[..i + 1][..i] == created[..i];
      if added(i) {
        MapFromAppend(PathOf(), kept, [created[i]], 0);
        assert MapFrom(PathOf(), [created[i]], |kept|) == [TraceRel(created[i])];
        names, kept := names + [TraceRel(created[i])], kept + [created[i]];
      }
      i := i + 1;
    }
    assert created[..i] == created;
  }


  /** One skill directory: the filters, the sandbox, then its scripts in order. */
  method RunSkill(w: World, e: Entry, ev0: seq<Evidence>, created0: seq<TraceRef>)
    returns (ev: seq<Evidence>, created: seq<TraceRef>)
    requires created0 == Traced(ev0)
    ensures ev == ev0 + EvidenceFrom(w, EntryPlan(w.exe, e), |ev0|)
    ensures created == Traced(ev)
  {
    ev, created := ev0, created0;
    if !e.isDir || !StartsWith(e.name, "localsetup-") || e.scripts == [] {
      assert ev0 + [] == ev0;
      return;
    }
    match e.sandbox
    case SandboxFailed =>
      assert ev0 + [] == ev0;
      return;
    case SandboxExited(rc, out) =>
      if rc != 0 || SandboxDir(out) == [] {
        assert ev0 + [] == ev0;
        return;
      }
    ghost var runs: seq<Evidence> := [];
    var j := 0;
    while j < |e.scripts|
      invariant 0 <= j <= |e.scripts|
      invariant runs == EvidenceFrom(w, ScriptsPlan(w.exe, e, e.scripts[..j]), |ev0|)
      invariant ev == ev0 + runs
      invariant created == Traced(ev)
    {
      var s := e.scripts[j];
      ghost var done := ScriptsPlan(w.exe, e, e.scripts[..j]);
      ghost var before := ev;
      ScriptsPlanPrefixStep(w.exe, e, e.scripts, j);
      ev, created := RunScript(w, e, s, ev, created);
      ghost var more := EvidenceFrom(w, ScriptPlan(w.exe, e, s), |before|);
      PlanStep(w, done, ScriptPlan(w.exe, e, s), |ev0|, runs, |before|, more);
      Regroup(ev0, runs, more, before, ev);
      runs := runs + more;
      j := j + 1;
    }
    assert e.scripts[..j] == e.scripts;
  }

  lemma EvidenceStep(w: World, plan: seq<Planned>, k: nat, first: nat, ev: seq<Evidence>, p: Planned, n: nat, rec: Evidence)
    requires k < |plan| && ev == EvidenceFrom(w, plan[..k], first)
    requires p == plan[k] && n == first + k && rec == RecordOf(w)(p, n)
    ensures ev + [rec] == EvidenceFrom(w, plan[..k + 1], first)
  {
    MapFromPrefixSnoc(RecordOf(w), plan, first, k, ev, rec);
  }

  /** What one run adds to the records and to the list of written traces. */
  lemma RunStep(w: World, plan: seq<Planned>, k: nat, ev0: seq<Evidence>, runs: seq<Evidence>, ev: seq<Evidence>,
                created: seq<TraceRef>, p: Planned, rec: Evidence)
    requires k < |plan| && runs == EvidenceFrom(w, plan[..k], |ev0|) && ev == ev0 + runs && created == Traced(ev)
    requires p == plan[k] && rec == RecordOf(w)(p, |ev|)
    ensures runs + [rec] == EvidenceFrom(w, plan[..k + 1], |ev0|)
    ensures ev + [rec] == ev0 + (runs + [rec])
    ensures Traced(ev + [rec]) == created + if rec.trace.Some? then [rec.trace.value] else []
  {
    EvidenceStep(w, plan, k, |ev0|, runs, p, |ev|, rec);
    TracedStep(ev, rec);
    SnocAssoc(ev0, runs, rec);
  }

  lemma TracedStep(ev: seq<Evidence>, rec: Evidence)
    ensures Traced(ev + [rec]) == Traced(ev) + if rec.trace.Some? then [rec.trace.value] else []
  {
    assert (ev + [rec])[..|ev|] == ev;
  }

  /** The runs of one script, numbered from zero within the script. */
  method RunScript(w: World, e: Entry, s: Script, ev0: seq<Evidence>, created0: seq<TraceRef>)
    returns (ev: seq<Evidence>, created: seq<TraceRef>)
    requires created0 == Traced(ev0)
    ensures ev == ev0 + EvidenceFrom(w, ScriptPlan(w.exe, e, s), |ev0|)
    ensures created == Traced(ev)
  {
    var invocations := DeriveInvocations(w.exe, s.rel, s.present, s.help, e.skillMd, KnownScripts(e.scripts));
    ev, created := RunAll(w, e.name, s.rel, invocations, ev0, created0);
  }

  /** The run loop over a script's invocations. */
  method RunAll(w: World, skillId: string, scriptRel: string, invocations: seq<Argv>,
                ev0: seq<Evidence>, created0: seq<TraceRef>)
    returns (ev: seq<Evidence>, created: seq<TraceRef>)
    requires created0 == Traced(ev0)
    ensures ev == ev0 + EvidenceFrom(w, PlanOf(skillId, scriptRel, invocations), |ev0|)
    ensures created == Traced(ev)
  {
    ghost var plan := PlanOf(skillId, scriptRel, invocations);
    ghost var runs: seq<Evidence> := [];
    ev, created := ev0, created0;
    var runIndex := 0;
    while runIndex < |invocations|
      invariant 0 <= runIndex <= |invocations| == |plan|
      invariant runs == EvidenceFrom(w, plan[..runIndex], |ev0|)
      invariant ev == ev0 + runs
      invariant created == Traced(ev)
    {
      var argv := invocations[runIndex];
      var p := Planned(skillId, scriptRel, argv, runIndex);
      var rec := RunOne(w, p, |ev|);
      RunStep(w, plan, runIndex, ev0, runs, ev, created, p, rec);
      runs := runs + [rec];
      ev := ev + [rec];
      if rec.trace.Some? {
        created := created + [rec.trace.value];
      }
      runIndex := runIndex + 1;
    }
    assert plan[..runIndex] == plan;
  }

  /** One run: observe, classify, cut the snippets, name and write the trace. */
  method RunOne(w: World, p: Planned, n: nat) returns (rec: Evidence)
    ensures rec == RecordOf(w)(p, n)
  {
    var Planned(skillId, scriptRel, argv, runIndex) := p;
    var r := Observe(w.exec(n));
    var traceback := Contains(r.stderr, "Traceback");
    var status: Status;
    if r.returncode == 0 && !traceback {
      status := Pass;
    } else if r.returncode != 0 || traceback {
      status := Fail;
    } else {
      status := Unvalidated;
    }
    var stdoutText := if status == Pass then Take(r.stdout, PassSnippetMax) else r.stdout;
    var stderrText := if status == Pass then Take(r.stderr, PassSnippetMax) else r.stderr;
    var traceRef := TraceRef(skillId, scriptRel, w.now(n), runIndex);
    var trace: Option<TraceRef> := Some(traceRef);
    if status == Fail || status == Unvalidated {
      if !w.writeOk(n) {
        trace := None;
      }
    } else {
      trace := None;
    }
    rec := Evidence(skillId, scriptRel, argv, r.returncode, status,
                    if status == Pass then Take(stdoutText, PassSnippetMax) else Take(stdoutText, OutputSnippetMax),
                    if status == Pass then Take(stderrText, PassSnippetMax) else Take(stderrText, OutputSnippetMax),
                    trace);
  }
}
