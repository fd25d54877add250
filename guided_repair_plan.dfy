// The guided repair planner for broken git states: prints a recovery plan for
// a named symptom, or detects symptoms from the text files of a git-state
// snapshot and prints the plan of each.
module GuidedRepairPlan {
  import opened Wrappers
  import opened Text
  import opened Seqs

  const PathMax: nat := 4096
  const SymptomMax: nat := 64

  /** The symptoms the planner knows, in the order of its symptom list. */
  datatype Symptom = OrphanedWorktree | PhantomLock | DetachedHead | HeadRefDisagreement | BrokenRefs | ZeroHashWorktree

  const Symptoms: seq<Symptom> := [OrphanedWorktree, PhantomLock, DetachedHead, HeadRefDisagreement, BrokenRefs, ZeroHashWorktree]

  /** The key under which a symptom is listed and looked up. */
  function Key(s: Symptom): string
  {
    match s
    case OrphanedWorktree => "orphaned-worktree-metadata"
    case PhantomLock => "phantom-branch-lock"
    case DetachedHead => "detached-head-state"
    case HeadRefDisagreement => "head-ref-disagreement"
    case BrokenRefs => "missing-or-broken-refs"
    case ZeroHashWorktree => "zero-hash-worktree-entry"
  }

  /** The symptom a key names, if any. */
  function Lookup(key: string): (r: Option<Symptom>)
    ensures r.Some? ==> Key(r.value) == key
  {
    if key == "orphaned-worktree-metadata" then Some(OrphanedWorktree)
    else if key == "phantom-branch-lock" then Some(PhantomLock)
    else if key == "detached-head-state" then Some(DetachedHead)
    else if key == "head-ref-disagreement" then Some(HeadRefDisagreement)
    else if key == "missing-or-broken-refs" then Some(BrokenRefs)
    else if key == "zero-hash-worktree-entry" then Some(ZeroHashWorktree)
    else None
  }

  /** Every symptom's key finds that symptom again, so no two symptoms share a
      key; the list names each symptom once. */
  lemma LookupKey(s: Symptom)
    ensures Lookup(Key(s)) == Some(s)
    ensures s in Symptoms && NoDup(Symptoms)
  {
  }

  /** Only the six keys name a symptom. */
  lemma LookupOnlyKeys(key: string)
    ensures Lookup(key).Some? <==> exists s :: s in Symptoms && Key(s) == key
  {
    if exists s :: s in Symptoms && Key(s) == key {
      var s :| s in Symptoms && Key(s) == key;
      LookupKey(s);
    }
  }

  function Header(s: Symptom): string { "[" + Key(s) + "]\n" }

  /** The text of each recovery plan after its bracketed header line. */
  function PlanBody(s: Symptom): string
  {
    match s
    case OrphanedWorktree =>
      "Run these first:\n  git worktree list --porcelain\n  git worktree prune -v\n"
      + "  git worktree list --porcelain\n\nIf stale entries still exist, back up `.git/` and then remove only the stale\n"
      + "`.git/worktrees/<name>` directory before rerunning prune."
    case PhantomLock =>
      "Run these first:\n  git worktree list --porcelain\n\nThen:\n"
      + "  1) Identify the worktree currently owning the branch.\n"
      + "  2) In that worktree, switch to another branch (or intentionally detach HEAD).\n"
      + "  3) Retry branch delete/switch in your main repo.\n\n"
      + "If ownership metadata is stale after verification, back up `.git/` before manual cleanup."
    case DetachedHead =>
      "Run these first:\n  git symbolic-ref -q HEAD || true\n  git reflog --date=iso -n 20\n"
      + "  git switch <known-good-branch>\n\nIf branch context is unknown:\n  git switch -c rescue/$(date +%Y%m%d-%H%M%S)"
    case HeadRefDisagreement =>
      "Run these first:\n  git branch --show-current\n  git symbolic-ref -q HEAD\n"
      + "  git show-ref --verify refs/heads/<expected-branch>\n  git symbolic-ref HEAD refs/heads/<expected-branch>\n\n"
      + "Fallback only after backup:\n  echo \"ref: refs/heads/<expected-branch>\" > .git/HEAD"
    case BrokenRefs =>
      "Run these first:\n  git fetch --all --prune\n"
      + "  git show-ref --verify refs/remotes/origin/<branch>\n  git branch -f <branch> origin/<branch>\n"
      + "  git switch <branch>\n\nBefore forcing branch pointers, inspect reflog for local-only commits:\n"
      + "  git reflog --date=iso -n 50 HEAD"
    case ZeroHashWorktree =>
      "Run these first:\n  git worktree list --porcelain\n  git worktree prune -v\n"
      + "  git worktree list --porcelain\n\n"
      + "If zero-hash entries persist, recreate affected worktree(s) from a verified branch ref."
  }

  /** The recovery plan of a symptom. */
  function Plan(s: Symptom): (r: string)
    ensures StartsWith(r, "[" + Key(s) + "]\n")
  {
    var h := Header(s);
    assert (h + PlanBody(s))[..|h|] == h;
    h + PlanBody(s)
  }

  /** `_sanitize`: the length limit applies to the raw text, before whitespace
      runs are collapsed; the result may be empty. */
  function Sanitize(s: Json, maxLen: nat, name: string): (r: Result<string>)
    ensures r.Ok? <==> s.JStr? && |s.s| <= maxLen
    ensures r.Ok? ==> r.value == Collapse(s.s) && |r.value| <= maxLen && Collapsed(r.value)
    ensures r.Ok? && r.value != [] ==> !IsSpace(r.value[0]) && !IsSpace(r.value[|r.value| - 1])
  {
    if !s.JStr? || |s.s| > maxLen then Err(name + ": invalid length or type (max " + NatToStr(maxLen) + ")")
    else
      var c := Collapse(s.s);
      CollapseProperties(s.s);
      CollapsedStrip(c);
      CollapseLength(s.s);
      Ok(Strip(c))
  }

  /** Whitespace counts against the limit: 65 spaces are rejected although
      they collapse to nothing. */
  lemma LimitBeforeCollapse(s: string)
    requires |s| > SymptomMax
    ensures Sanitize(JStr(s), SymptomMax, "symptom").Err?
  {
  }

  /** `print_plan`: the plan text, or exit status 1 for an unknown symptom. */
  function PrintPlan(key: string): (r: Result<string>)
    ensures r.Ok? <==> Lookup(key).Some?
    ensures r.Ok? ==> StartsWith(r.value, "[" + key + "]\n") && r.value == Plan(Lookup(key).value)
  {
    match Lookup(key)
    case None => Err("unknown symptom '" + key + "'")
    case Some(s) => Ok(Plan(s))
  }

  // ---------------------------------------------------------------------
  // _last_line_no_comment

  predicate Meaningful(line: string)
  {
    var t := Strip(line);
    t != [] && t[0] != '#'
  }

  /** The index of the last meaningful line among the first `n` lines. */
  function LastMeaningfulBelow(lines: seq<string>, n: nat): (r: Option<nat>)
    requires n <= |lines|
    ensures r.Some? ==> r.value < n && Meaningful(lines[r.value])
                        && forall j :: r.value < j < n ==> !Meaningful(lines[j])
    ensures r.None? ==> forall j :: 0 <= j < n ==> !Meaningful(lines[j])
  {
    if n == 0 then None
    else if Meaningful(lines[n - 1]) then Some(n - 1)
    else LastMeaningfulBelow(lines, n - 1)
  }

  /** The last line of `lines` that is not blank and not a comment, stripped. */
  function LastMeaningful(lines: seq<string>): (r: string)
    ensures r == [] <==> forall k :: 0 <= k < |lines| ==> !Meaningful(lines[k])
    ensures r != [] ==> !IsSpace(r[0]) && r[0] != '#'
    ensures r != [] ==> exists k :: 0 <= k < |lines| && r == Strip(lines[k])
                                    && forall j :: k < j < |lines| ==> !Meaningful(lines[j])
  {
    match LastMeaningfulBelow(lines, |lines|)
    case None => []
    case Some(k) =>
      StripIdempotent(lines[k]);
      Strip(lines[k])
  }

  /** `_last_line_no_comment`: "" for a missing file, otherwise the last
      meaningful line of its text. */
  function LastLineNoComment(file: Option<string>): (r: string)
    ensures file.None? ==> r == []
    ensures r != [] ==> !IsSpace(r[0]) && r[0] != '#'
  {
    match file
    case None => []
    case Some(text) => LastMeaningful(Lines(text))
  }

  // ---------------------------------------------------------------------
  // The patterns of run_detection

  /** A line starting at `i` that reads `HEAD`, whitespace up to `j`, then 40
      zeros. */
  predicate ZeroHashAt(text: string, i: int, j: int)
  {
    0 <= i && i + 4 < j && j + 40 <= |text| && (i == 0 || text[i - 1] == '\n')
    && text[i..i + 4] == "HEAD" && AllSpace(text[i + 4..j]) && AllZero(text[j..j + 40])
  }

  /** `re.search(r"^HEAD\s+0{40}", text, re.MULTILINE)`. */
  predicate ZeroHashHead(text: string)
  {
    exists i, j | 0 <= i < j <= |text| :: ZeroHashAt(text, i, j)
  }

  predicate AllZero(s: string)
  {
    forall i :: 0 <= i < |s| ==> s[i] == '0'
  }

  /** `branch.oid`, whitespace up to `j`, then `(initial)`, starting at `i`. */
  predicate InitialOidAt(st: string, i: int, j: int)
  {
    0 <= i && i + 10 < j && j + 9 <= |st| && st[i..i + 10] == "branch.oid"
    && AllSpace(st[i + 10..j]) && st[j..j + 9] == "(initial)"
  }

  /** `re.search(r"No commits yet|branch\.oid\s+\(initial\)", st)`. */
  predicate InitialRepository(st: string)
  {
    Contains(st, "No commits yet") || exists i, j | 0 <= i < j <= |st| :: InitialOidAt(st, i, j)
  }

  /** A case-insensitive search for any of the words. */
  predicate SearchIgnoreCase(text: string, words: seq<string>)
  {
    exists k :: 0 <= k < |words| && Contains(Lower(text), words[k])
  }

  /** `detached|HEAD detached`; the second alternative implies the first. */
  predicate Detached(st: string) { SearchIgnoreCase(st, ["detached"]) }

  predicate BrokenStatus(st: string)
  {
    SearchIgnoreCase(st, ["unknown revision", "not a valid object name", "cannot lock ref", "fatal:"])
  }

  predicate BrokenShowRef(sr: string) { SearchIgnoreCase(sr, ["not a valid", "fatal:"]) }

  /** A `worktree <path>` line naming a non-empty path that does not exist. */
  predicate OrphanLine(line: string, present: string -> bool)
  {
    StartsWith(line, "worktree ") && Strip(line[9..]) != [] && !present(Strip(line[9..]))
  }

  // ---------------------------------------------------------------------
  // run_detection

  /** The files of a snapshot directory (None when the file is absent), and
      which paths exist on the machine. */
  datatype Snapshot = Snapshot(worktreeList: Option<string>, status: Option<string>, branchCurrent: Option<string>,
                               symbolicRefHead: Option<string>, showRef: Option<string>, present: string -> bool)

  function CurrentBranch(s: Snapshot): string { LastLineNoComment(s.branchCurrent) }
  function SymbolicBranch(s: Snapshot): string { Replace(LastLineNoComment(s.symbolicRefHead), "refs/heads/", "") }

  predicate HasOrphan(s: Snapshot)
  {
    s.worktreeList.Some? && exists k :: 0 <= k < |Lines(s.worktreeList.value)| && OrphanLine(Lines(s.worktreeList.value)[k], s.present)
  }

  predicate HasZeroHash(s: Snapshot)
  {
    s.worktreeList.Some? && ZeroHashHead(s.worktreeList.value) && !(s.status.Some? && InitialRepository(s.status.value))
  }

  predicate HasDetached(s: Snapshot) { s.status.Some? && Detached(s.status.value) }

  predicate HasHeadRefDisagreement(s: Snapshot)
  {
    CurrentBranch(s) != [] && SymbolicBranch(s) != [] && CurrentBranch(s) != SymbolicBranch(s)
  }

  predicate HasBrokenStatus(s: Snapshot) { s.status.Some? && BrokenStatus(s.status.value) }
  predicate HasBrokenShowRef(s: Snapshot) { s.showRef.Some? && BrokenShowRef(s.showRef.value) }

  /** The outcome of each check of `run_detection`, in the order they run. */
  datatype Checks = Checks(orphan: bool, zeroHash: bool, detached: bool, headRef: bool,
                           brokenStatus: bool, brokenShowRef: bool)

  function ChecksOf(s: Snapshot): Checks
  {
    Checks(HasOrphan(s), HasZeroHash(s), HasDetached(s), HasHeadRefDisagreement(s),
           HasBrokenStatus(s), HasBrokenShowRef(s))
  }

  function If(c: bool, x: Symptom): seq<Symptom> { if c then [x] else [] }

  /** The symptoms in the order the checks append them (duplicates included). */
  function Matches(c: Checks): (r: seq<Symptom>)
  {
    If(c.orphan, OrphanedWorktree) + If(c.zeroHash, ZeroHashWorktree) + If(c.detached, DetachedHead)
    + If(c.headRef, HeadRefDisagreement) + If(c.brokenStatus, BrokenRefs) + If(c.brokenShowRef, BrokenRefs)
  }

  /** Whether the check that reports a symptom fired. */
  predicate Fired(c: Checks, s: Symptom)
  {
    match s
    case OrphanedWorktree => c.orphan
    case PhantomLock => false
    case DetachedHead => c.detached
    case HeadRefDisagreement => c.headRef
    case BrokenRefs => c.brokenStatus || c.brokenShowRef
    case ZeroHashWorktree => c.zeroHash
  }

  /** A symptom is among the matches exactly when its check fired; the phantom
      branch lock is never detected. */
  lemma MatchesMembers(c: Checks, y: Symptom)
    ensures y in Matches(c) <==> Fired(c, y)
  {
    var a, b, d, e, f, g := If(c.orphan, OrphanedWorktree), If(c.zeroHash, ZeroHashWorktree), If(c.detached, DetachedHead),
                            If(c.headRef, HeadRefDisagreement), If(c.brokenStatus, BrokenRefs), If(c.brokenShowRef, BrokenRefs);
    InConcat(a + b + d + e + f, g, y);
    InConcat(a + b + d + e, f, y);
    InConcat(a + b + d, e, y);
    InConcat(a + b, d, y);
    InConcat(a, b, y);
  }

  /** The worktree loop: the first orphaned `worktree` line ends the search. */
  method FindOrphan(lines: seq<string>, present: string -> bool) returns (found: bool)
    ensures found <==> exists k :: 0 <= k < |lines| && OrphanLine(lines[k], present)
  {
    for k := 0 to |lines|
      invariant forall j :: 0 <= j < k ==> !OrphanLine(lines[j], present)
    {
      var line := lines[k];
      if StartsWith(line, "worktree ") {
        var path := Strip(line[9..]);
        if path != [] && !present(path) {
          return true;
        }
      }
    }
    return false;
  }

  /** The checks of `run_detection` on the snapshot's files. */
  method RunChecks(s: Snapshot) returns (c: Checks)
    ensures c == ChecksOf(s)
  {
    var orphan, zero := false, false;
    if s.worktreeList.Some? {
      orphan := FindOrphan(Lines(s.worktreeList.value), s.present);
      if ZeroHashHead(s.worktreeList.value) {
        if s.status.Some? {
          zero := !InitialRepository(s.status.value);
        } else {
          zero := true;
        }
      }
    }
    assert orphan == HasOrphan(s) && zero == HasZeroHash(s);
    var detached := s.status.Some? && Detached(s.status.value);
    var cur := LastLineNoComment(s.branchCurrent);
    var sym := Replace(LastLineNoComment(s.symbolicRefHead), "refs/heads/", "");
    var headRef := cur != [] && sym != [] && cur != sym;
    assert cur == CurrentBranch(s) && sym == SymbolicBranch(s);
    var brokenStatus := s.status.Some? && BrokenStatus(s.status.value);
    var brokenShowRef := s.showRef.Some? && BrokenShowRef(s.showRef.value);
    c := Checks(orphan, zero, detached, headRef, brokenStatus, brokenShowRef);
  }

  /** The appends of `run_detection`, one per check that fired, in order. */
  method Collect(c: Checks) returns (matches: seq<Symptom>)
    ensures matches == Matches(c)
  {
    matches := [];
    if c.orphan {
      matches := matches + [OrphanedWorktree];
    }
    assert matches == If(c.orphan, OrphanedWorktree);
    if c.zeroHash {
      matches := matches + [ZeroHashWorktree];
    }
    ghost var m := If(c.orphan, OrphanedWorktree) + If(c.zeroHash, ZeroHashWorktree);
    assert matches == m;
    if c.detached {
      matches := matches + [DetachedHead];
    }
    m := m + If(c.detached, DetachedHead);
    assert matches == m;
    if c.headRef {
      matches := matches + [HeadRefDisagreement];
    }
    m := m + If(c.headRef, HeadRefDisagreement);
    assert matches == m;
    if c.brokenStatus {
      matches := matches + [BrokenRefs];
    }
    m := m + If(c.brokenStatus, BrokenRefs);
    assert matches == m;
    if c.brokenShowRef {
      matches := matches + [BrokenRefs];
    }
  }

  /** `run_detection`: appends each detected symptom in check order, then
      removes repeats keeping first occurrences; `unique` lists the symptoms
      whose plans are printed, in printing order. */
  method RunDetection(s: Snapshot) returns (matches: seq<Symptom>, unique: seq<Symptom>)
    ensures matches == Matches(ChecksOf(s))
    ensures unique == Dedup(matches) && NoDup(unique)
    ensures forall x :: x in unique <==> Fired(ChecksOf(s), x)
  {
    var c := RunChecks(s);
    matches := Collect(c);
    unique := Dedup(matches);
    DedupMembers(matches);
    forall x ensures x in unique <==> Fired(c, x) {
      MatchesMembers(c, x);
    }
  }

  /** Head-ref disagreement is reported exactly when both branch names are
      known and differ once `refs/heads/` is removed from the symbolic ref. */
  lemma HeadRefReported(s: Snapshot)
    ensures HeadRefDisagreement in Dedup(Matches(ChecksOf(s))) <==>
      CurrentBranch(s) != [] && SymbolicBranch(s) != [] && CurrentBranch(s) != SymbolicBranch(s)
  {
    DedupMembers(Matches(ChecksOf(s)));
    MatchesMembers(ChecksOf(s), HeadRefDisagreement);
  }

  /** A zero-hash HEAD line is reported unless the status shows a repository
      without commits. */
  lemma ZeroHashReported(s: Snapshot)
    ensures ZeroHashWorktree in Dedup(Matches(ChecksOf(s))) <==>
      s.worktreeList.Some? && ZeroHashHead(s.worktreeList.value) && !(s.status.Some? && InitialRepository(s.status.value))
  {
    DedupMembers(Matches(ChecksOf(s)));
    MatchesMembers(ChecksOf(s), ZeroHashWorktree);
  }

  /** The checks before the two broken-ref checks report other symptoms. */
  lemma FrontNoBrokenRefs(c: Checks, front: seq<Symptom>)
    requires front == If(c.orphan, OrphanedWorktree) + If(c.zeroHash, ZeroHashWorktree) + If(c.detached, DetachedHead)
      + If(c.headRef, HeadRefDisagreement)
    ensures forall k :: 0 <= k < |front| ==> front[k] != BrokenRefs
  {
    forall k | 0 <= k < |front| ensures front[k] != BrokenRefs {
      var y := front[k];
      assert y in front;
      InConcat(If(c.orphan, OrphanedWorktree) + If(c.zeroHash, ZeroHashWorktree) + If(c.detached, DetachedHead),
               If(c.headRef, HeadRefDisagreement), y);
      InConcat(If(c.orphan, OrphanedWorktree) + If(c.zeroHash, ZeroHashWorktree), If(c.detached, DetachedHead), y);
      InConcat(If(c.orphan, OrphanedWorktree), If(c.zeroHash, ZeroHashWorktree), y);
    }
  }

  /** A broken status and a broken show-ref both append the same symptom; it is
      printed once. */
  lemma {:induction false} BrokenRefsOnce(c: Checks)
    requires c.brokenStatus && c.brokenShowRef
    ensures CountIf(Matches(c), x => x == BrokenRefs) == 2
    ensures CountIf(Dedup(Matches(c)), x => x == BrokenRefs) == 1
  {
    var m := Matches(c);
    var p := (x: Symptom) => x == BrokenRefs;
    var front := If(c.orphan, OrphanedWorktree) + If(c.zeroHash, ZeroHashWorktree) + If(c.detached, DetachedHead)
                 + If(c.headRef, HeadRefDisagreement);
    assert m == front + [BrokenRefs] + [BrokenRefs];
    assert CountIf(front, p) == 0 by {
      FrontNoBrokenRefs(c, front);
      CountIfNone(front, p);
    }
    assert CountIf(m, p) == 2 by {
      CountIfAppend(front, [BrokenRefs], p);
      CountIfAppend(front + [BrokenRefs], [BrokenRefs], p);
      assert CountIf([BrokenRefs], p) == 1 by {
        assert [BrokenRefs][..0] == [];
      }
    }
    assert BrokenRefs in Dedup(m) by {
      DedupMembers(m);
      assert m[|m| - 1] == BrokenRefs;
    }
    CountIfNoDupOne(Dedup(m), p, BrokenRefs);
  }

  // ---------------------------------------------------------------------
  // main

  predicate Given(o: Option<string>) { o.Some? && o.value != [] }

  datatype Action = ListSymptoms | ShowPlan(plan: string) | Detect(dir: string) | NoAction

  /** `main`.  `isDir` says which sanitized paths are directories, and
      `resolve` is the snapshot directory found for a repository (None when the
      lookup exits with status 1). */
  function ExitCode(list: bool, symptom: Option<string>, repo: Option<string>, snapshot: Option<string>,
                isDir: string -> bool, resolve: string -> Option<string>): (r: (int, Action))
    ensures list ==> r == (0, ListSymptoms)
    ensures !list && Given(symptom) ==>
      r == match Sanitize(JStr(symptom.value), SymptomMax, "symptom")
        case Err(_) => (2, NoAction)
        case Ok(key) => if Lookup(key).Some? then (0, ShowPlan(Plan(Lookup(key).value))) else (1, NoAction)
    ensures !list && !Given(symptom) && !Given(snapshot) && !Given(repo) ==> r == (2, NoAction)
    ensures r.0 == 0 <==> r.1 != NoAction
  {
    if list then (0, ListSymptoms)
    else if Given(symptom) then
      match Sanitize(JStr(symptom.value), SymptomMax, "symptom")
      case Err(_) => (2, NoAction)
      case Ok(key) =>
        match PrintPlan(key)
        case Err(_) => (1, NoAction)
        case Ok(plan) => (0, ShowPlan(plan))
    else if !Given(snapshot) && !Given(repo) then (2, NoAction)
    else
      var raw := if Given(snapshot) then snapshot.value else repo.value;
      match SanitizeDir(raw, isDir)
      case Err(_) => (2, NoAction)
      case Ok(dir) =>
        var snapDir := if Given(snapshot) then Some(dir) else resolve(dir);
        if snapDir.None? || !isDir(snapDir.value) then (1, NoAction)
        else (0, Detect(snapDir.value))
  }

  /** `_sanitize_path`: the sanitized text must name a directory. */
  function SanitizeDir(s: string, isDir: string -> bool): (r: Result<string>)
    ensures r.Ok? <==> |s| <= PathMax && isDir(Collapse(s))
    ensures r.Ok? ==> r.value == Collapse(s)
  {
    match Sanitize(JStr(s), PathMax, "path")
    case Err(e) => Err(e)
    case Ok(p) => if isDir(p) then Ok(p) else Err("path does not exist or is not a directory: " + p)
  }
}
