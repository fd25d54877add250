// The regression harness of the git-state repair plans: runs named scenarios
// (each builds a throw-away repository and checks the repair tool's output)
// and counts passes and failures.
module RegressionHarness {
  import opened Wrappers
  import opened Text
  import opened Seqs

  const Scenarios: seq<string> := ["orphaned-worktree", "detached-head", "zero-hash-worktree", "manual-phantom-branch-lock"]
  const NameMax: nat := 64

  /** `_sanitize`: the raw text is at most 64 characters; whitespace runs are
      collapsed and the result must not be empty. */
  function Sanitize(s: Json): (r: Result<string>)
    ensures r.Ok? <==> s.JStr? && |s.s| <= NameMax && !AllSpace(s.s)
    ensures r.Ok? ==> r.value == Collapse(s.s) && r.value != [] && |r.value| <= NameMax
  {
    if !s.JStr? || |s.s| > NameMax then Err("scenario name invalid (max " + NatToStr(NameMax) + ")")
    else
      var c := Collapse(s.s);
      CollapseProperties(s.s);
      CollapsedStrip(c);
      CollapseEmpty(s.s);
      CollapseLength(s.s);
      if Strip(c) == [] then Err("scenario name empty") else Ok(Strip(c))
  }

  /** `run_scenario`: the outcome of a known scenario comes from the oracle
      `outcome` (the scenario's repository work and its output check); any other
      name fails. */
  function RunScenario(name: string, outcome: string -> bool): (ok: bool)
    ensures name !in Scenarios ==> !ok
    ensures name in Scenarios ==> ok == outcome(name)
  {
    if name == "orphaned-worktree" then outcome(name)
    else if name == "detached-head" then outcome(name)
    else if name == "zero-hash-worktree" then outcome(name)
    else if name == "manual-phantom-branch-lock" then outcome(name)
    else false
  }

  predicate Given(o: Option<string>) { o.Some? && o.value != [] }

  /** The scenarios `main` runs: the one named by `--scenario`, or all of them. */
  function Selected(scenario: Option<string>): (r: seq<string>)
    ensures Given(scenario) ==> r == [scenario.value]
    ensures !Given(scenario) ==> r == Scenarios
  {
    if Given(scenario) then [scenario.value] else Scenarios
  }

  function ReportLine(name: string, ok: bool): string
  {
    (if ok then "PASS " else "FAIL ") + name
  }

  /** The loop of `main`: one report line per scenario and the two counters. */
  method RunAll(scenarios: seq<string>, outcome: string -> bool)
    returns (passCount: nat, failCount: nat, lines: seq<string>)
    ensures passCount + failCount == |scenarios|
    ensures passCount == CountIf(scenarios, n => RunScenario(n, outcome))
    ensures |lines| == |scenarios|
    ensures forall i :: 0 <= i < |scenarios| ==> lines[i] == ReportLine(scenarios[i], RunScenario(scenarios[i], outcome))
  {
    passCount, failCount, lines := 0, 0, [];
    ghost var p := n => RunScenario(n, outcome);
    for k := 0 to |scenarios|
      invariant passCount + failCount == k
      invariant passCount == CountIf(scenarios[..k], p)
      invariant |lines| == k
      invariant forall i :: 0 <= i < k ==> lines[i] == ReportLine(scenarios[i], RunScenario(scenarios[i], outcome))
    {
      var ok := RunScenario(scenarios[k], outcome);
      assert CountIf(scenarios[..k + 1], p) == passCount + (if ok then 1 else 0) by {
        CountIfPrefixStep(scenarios, p, k);
      }
      if ok {
        passCount := passCount + 1;
      } else {
        failCount := failCount + 1;
      }
      lines := lines + [ReportLine(scenarios[k], ok)];
    }
    assert scenarios[..|scenarios|] == scenarios;
  }

  /** `main`: `--list` first; then the guided script must exist; then a named
      scenario must pass `_sanitize` and be known (exit 2 otherwise).  The exit
      code of a run is 0 exactly when nothing failed. */
  method Execute(list: bool, scenario: Option<string>, guidedPresent: bool, outcome: string -> bool)
    returns (code: int, lines: seq<string>)
    ensures list ==> code == 0 && lines == Scenarios
    ensures !list && !guidedPresent ==> code == 2 && lines == []
    ensures !list && Given(scenario) && (Sanitize(JStr(scenario.value)).Err? || scenario.value !in Scenarios) ==>
      code == 2 && lines == []
    ensures !list && guidedPresent && (Given(scenario) ==> scenario.value in Scenarios) ==>
      |lines| == |Selected(scenario)| + 2 && lines[|lines| - 2] == []
      && (code == 0 <==> CountIf(Selected(scenario), n => RunScenario(n, outcome)) == |Selected(scenario)|)
    ensures code in {0, 1, 2}
  {
    if list {
      return 0, Scenarios;
    }
    if !guidedPresent {
      return 2, [];
    }
    var scenarios := Selected(scenario);
    if Given(scenario) {
      if Sanitize(JStr(scenario.value)).Err? {
        KnownNameValid(scenario.value);
        return 2, [];
      }
      if scenario.value !in Scenarios {
        return 2, [];
      }
    }
    var passCount, failCount, results := RunAll(scenarios, outcome);
    lines := results + [[], "Harness result: " + NatToStr(passCount) + " passed, " + NatToStr(failCount) + " failed"];
    code := if failCount == 0 then 0 else 1;
  }

  /** A name the name check rejects is not a known scenario. */
  lemma KnownNameValid(name: string)
    ensures name in Scenarios ==> Sanitize(JStr(name)).Ok?
  {
    if name in Scenarios {
      var k :| 0 <= k < |Scenarios| && Scenarios[k] == name;
      ScenarioNamesValid(k);
    }
  }

  /** Every known scenario name passes the name check. */
  lemma ScenarioNamesValid(k: nat)
    requires k < |Scenarios|
    ensures Sanitize(JStr(Scenarios[k])).Ok?
  {
    var s := Scenarios[k];
    assert s[0] != ' ' && !IsSpace(s[0]);
  }
}
