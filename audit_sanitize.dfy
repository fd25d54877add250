// Sanitizers of the framework audit's deep analysis: the names used for trace
// files inside the evidence archive, the snippets embedded in the report, and
// the fenced code blocks of the report.
module AuditSanitize {
  import opened Wrappers
  import opened Text

  const PathComponentMax: nat := 256
  const SnippetMaxReport: nat := 800
  const EmptySnippet := "*Output truncated or empty.*"

  // ---------------------------------------------------------------------
  // _code_block

  /** A report code block: nothing for blank content, otherwise the content
      without its trailing whitespace between `~~~lang` and `~~~` fences. */
  function CodeBlock(content: string, lang: string): (r: seq<string>)
    ensures r == [] <==> AllSpace(content)
    ensures r != [] ==> |r| == 3 && r[0] == "~~~" + lang && r[2] == "~~~"
    ensures r != [] ==> r[1] != [] && !IsSpace(r[1][|r[1]| - 1])
    ensures r != [] ==> StartsWith(content, r[1]) && AllSpace(content[|r[1]|..])
  {
    StripEmpty(content);
    if Strip(content) == [] then []
    else
      var body := RStrip(content);
      assert body == [] ==> AllSpace(content) by {
        assert content[0..] == content;
      }
      ["~~~" + lang, body, "~~~"]
  }

  // ---------------------------------------------------------------------
  // CONTROL_CHARS.sub("", s)

  function RemoveControlChars(s: string): (r: string)
    ensures |r| <= |s|
    ensures forall i :: 0 <= i < |r| ==> !IsControlChar(r[i]) && r[i] in s
    decreases |s|
  {
    if s == [] then []
    else (if IsControlChar(s[0]) then [] else [s[0]]) + RemoveControlChars(s[1..])
  }

  lemma {:induction false} RemoveControlCharsKeepsClean(s: string)
    requires forall i :: 0 <= i < |s| ==> !IsControlChar(s[i])
    ensures RemoveControlChars(s) == s
    decreases |s|
  {
    if s != [] {
      RemoveControlCharsKeepsClean(s[1..]);
    }
  }

  // ---------------------------------------------------------------------
  // _sanitize_tarball_script_rel

  /** The class `[a-zA-Z0-9_./-]`. */
  predicate IsSafePathChar(c: char) { IsAsciiAlnum(c) || c == '_' || c == '.' || c == '/' || c == '-' }

  /** The class `[a-zA-Z0-9_-]`. */
  predicate IsIdChar(c: char) { IsAsciiAlnum(c) || c == '_' || c == '-' }

  predicate NoDotDot(s: string)
  {
    forall i :: 0 <= i < |s| - 1 ==> !(s[i] == '.' && s[i + 1] == '.')
  }

  lemma NoDotDotIff(s: string)
    ensures NoDotDot(s) <==> !Contains(s, "..")
  {
    if !NoDotDot(s) {
      var i :| 0 <= i < |s| - 1 && s[i] == '.' && s[i + 1] == '.';
      assert OccursAt(s, "..", i);
    }
    if Contains(s, "..") {
      var i := IndexOf(s, "..").value;
      assert s[i..i + 2] == "..";
      assert s[i] == '.' && s[i + 1] == '.';
    }
  }

  /** After Python's left-to-right `replace("..", "_")` no two dots are adjacent;
      a result that starts with a dot comes from a lone leading dot. */
  lemma {:induction false} ReplaceDotDotClears(s: string)
    ensures NoDotDot(Replace(s, "..", "_"))
    ensures Replace(s, "..", "_") != [] && Replace(s, "..", "_")[0] == '.' ==>
      s != [] && s[0] == '.' && (|s| == 1 || s[1] != '.')
    decreases |s|
  {
    if s != [] {
      var r := Replace(s, "..", "_");
      if StartsWith(s, "..") {
        ReplaceDotDotClears(s[2..]);
        var rest := Replace(s[2..], "..", "_");
        assert r == "_" + rest;
        forall i | 0 <= i < |r| - 1 ensures !(r[i] == '.' && r[i + 1] == '.') {
          if i > 0 {
            assert r[i] == rest[i - 1] && r[i + 1] == rest[i];
          }
        }
      } else {
        ReplaceDotDotClears(s[1..]);
        var rest := Replace(s[1..], "..", "_");
        assert r == [s[0]] + rest;
        assert s[0] == '.' && |s| > 1 ==> s[1] != '.';
        forall i | 0 <= i < |r| - 1 ensures !(r[i] == '.' && r[i + 1] == '.') {
          if i > 0 {
            assert r[i] == rest[i - 1] && r[i + 1] == rest[i];
          } else {
            assert r[1] == rest[0];
          }
        }
      }
    }
  }

  lemma NoDotDotMapped(s: string, t: string)
    requires |s| == |t| && NoDotDot(s)
    requires forall i :: 0 <= i < |s| ==> (t[i] == '.' ==> s[i] == '.')
    ensures NoDotDot(t)
  {
  }

  /** Script path as a single archive path component. */
  function SanitizeScriptRel(scriptRel: string): (r: string)
    ensures |r| <= PathComponentMax
    ensures !Contains(r, "..") && '/' !in r
    ensures forall i :: 0 <= i < |r| ==> IsIdChar(r[i]) || r[i] == '.'
  {
    var s1 := Replace(Strip(scriptRel), "\0", "");
    var s2 := SubstituteOutside(s1, IsSafePathChar, '_');
    var s3 := if Contains(s2, "..") then Replace(s2, "..", "_") else s2;
    var s4 := Replace(s3, "/", "_");
    var r := Take(s4, PathComponentMax);
    assert NoDotDot(s3) && forall i :: 0 <= i < |s3| ==> IsSafePathChar(s3[i]) by {
      if Contains(s2, "..") {
        ReplaceDotDotClears(s2);
        forall i | 0 <= i < |s3| ensures IsSafePathChar(s3[i]) {
          ReplaceChars(s2, "..", "_", i);
        }
      } else {
        NoDotDotIff(s2);
      }
    }
    ReplaceCharByChar(s3, '/', '_');
    NoDotDotMapped(s3, s4);
    assert NoDotDot(r);
    NoDotDotIff(r);
    r
  }

  // ---------------------------------------------------------------------
  // _sanitize_skill_id_for_tarball

  /** `^localsetup-[a-zA-Z0-9_-]+` matching the whole of `s`. */
  predicate IsLocalsetupId(s: string)
  {
    |s| > 11 && s[..11] == "localsetup-" && forall i :: 11 <= i < |s| ==> IsIdChar(s[i])
  }

  lemma LocalsetupIdChars(s: string)
    requires IsLocalsetupId(s)
    ensures forall i :: 0 <= i < |s| ==> IsIdChar(s[i])
  {
    var p := "localsetup-";
    assert forall i :: 0 <= i < 11 ==> IsIdChar(p[i]);
    assert forall i :: 0 <= i < 11 ==> s[i] == p[i];
  }

  /** Python `re.match` of `^localsetup-[a-zA-Z0-9_-]+$`: `$` also matches just
      before one final line feed. */
  predicate MatchesSkillIdPattern(s: string)
  {
    IsLocalsetupId(s) || (|s| > 0 && s[|s| - 1] == '\n' && IsLocalsetupId(s[..|s| - 1]))
  }

  /** `skill_id.strip().replace("\x00", "")[:256]`. */
  function CleanSkillId(skillId: string): (s: string)
    ensures |s| <= PathComponentMax && '\0' !in s
  {
    var t := Replace(Strip(skillId), "\0", "");
    ReplaceCharWithEmpty(Strip(skillId), '\0');
    Take(t, PathComponentMax)
  }

  /** The skill-id sanitizer as the source writes it. */
  function SanitizeSkillIdAsWritten(skillId: string): (r: string)
    ensures |r| <= PathComponentMax && '/' !in r
  {
    if skillId == [] then "unknown"
    else
      var s := CleanSkillId(skillId);
      if MatchesSkillIdPattern(s) then
        if IsLocalsetupId(s) then
          LocalsetupIdChars(s);
          s
        else
          LocalsetupIdChars(s[..|s| - 1]);
          assert s == s[..|s| - 1] + "\n";
          s
      else SubstituteOutside(s, IsIdChar, '_')
  }

  /** A blank skill id yields an empty path component, so the trace path
      `"/" + script + "/" + name` is absolute. */
  lemma AsWrittenBlankIdIsEmpty()
    ensures SanitizeSkillIdAsWritten(" ") == ""
  {
    assert CleanSkillId(" ") == "";
    assert !MatchesSkillIdPattern("");
    assert SubstituteOutside("", IsIdChar, '_') == "";
  }

  lemma StripIdTail(id: string)
    requires IsLocalsetupId(id) && |id| < PathComponentMax
    ensures Strip(id + "\n\0") == id + "\n\0"
  {
    var x := id + "\n\0";
    assert x[0] == 'l' && x[|x| - 1] == '\0';
    StripNoEdgeSpace(x);
  }
  lemma ReplaceIdTail(id: string)
    requires IsLocalsetupId(id) && |id| < PathComponentMax
    ensures Replace(id + "\n\0", "\0", "") == id + "\n"
  {
    var t := id + "\n";
    NoNulInId(id);
    ReplaceAppendAbsent(t, "\0");
    ReplaceNul();
    assert t + "\0" == id + "\n\0";
  }
  lemma NoNulInId(id: string)
    requires IsLocalsetupId(id)
    ensures '\0' !in id + "\n"
  {
    var t := id + "\n";
    LocalsetupIdChars(id);
    forall i | 0 <= i < |t| ensures t[i] != '\0' {
      if i < |id| {
        assert t[i] == id[i] && IsIdChar(id[i]);
      }
    }
  }
  lemma CleanIdTail(id: string)
    requires IsLocalsetupId(id) && |id| < PathComponentMax
    ensures CleanSkillId(id + "\n\0") == id + "\n"
  {
    StripIdTail(id);
    ReplaceIdTail(id);
  }
  lemma MatchesIdLineFeed(id: string)
    requires IsLocalsetupId(id)
    ensures MatchesSkillIdPattern(id + "\n") && !IsLocalsetupId(id + "\n")
  {
    var t := id + "\n";
    assert t[..|t| - 1] == id;
    assert !IsIdChar(t[|t| - 1]);
  }
  /** `$` lets a trailing line feed through into the path component: a valid
      id followed by a line feed and a NUL keeps the line feed. */
  lemma AsWrittenKeepsLineFeed(id: string)
    requires IsLocalsetupId(id) && |id| < PathComponentMax
    ensures SanitizeSkillIdAsWritten(id + "\n\0") == id + "\n"
  {
    CleanIdTail(id);
    MatchesIdLineFeed(id);
  }

  /** The skill-id sanitizer with the evident intent: a non-empty component of
      `[a-zA-Z0-9_-]` characters, `unknown` when nothing is left. */
  function SanitizeSkillId(skillId: string): (r: string)
    ensures r != [] && |r| <= PathComponentMax
    ensures forall i :: 0 <= i < |r| ==> IsIdChar(r[i])
    ensures IsLocalsetupId(CleanSkillId(skillId)) ==> r == CleanSkillId(skillId)
  {
    var s := CleanSkillId(skillId);
    if s == [] then "unknown"
    else if IsLocalsetupId(s) then
      LocalsetupIdChars(s);
      s
    else SubstituteOutside(s, IsIdChar, '_')
  }

  /** The correction changes nothing except the two cases it is for. */
  lemma SanitizeSkillIdAgrees(skillId: string)
    requires CleanSkillId(skillId) != []
    requires !(MatchesSkillIdPattern(CleanSkillId(skillId)) && !IsLocalsetupId(CleanSkillId(skillId)))
    ensures SanitizeSkillId(skillId) == SanitizeSkillIdAsWritten(skillId)
  {
  }

  /** A name that starts with `localsetup-` keeps its first character through
      strip, NUL removal and the length cap. */
  lemma PrefixedIdClean(skillId: string)
    requires StartsWith(skillId, "localsetup-")
    ensures CleanSkillId(skillId) != [] && CleanSkillId(skillId)[0] == 'l'
  {
    assert skillId[0] == 'l';
    var x := Strip(skillId);
    StripOffsetNoLead(skillId);
    StripKeepsNonSpace(skillId, 'l');
    StripCharsFrom(skillId);
    assert x[0] == 'l';
    assert !StartsWith(x, "\0");
    assert Replace(x, "\0", "") == [x[0]] + Replace(x[1..], "\0", "");
  }

  /** Whatever the input, the as-written sanitizer yields a component without
      `..`; for a name that starts with `localsetup-`, as every name the deep
      analysis passes does, the component is not empty. */
  lemma AsWrittenIdSafe(skillId: string)
    ensures !Contains(SanitizeSkillIdAsWritten(skillId), "..")
    ensures StartsWith(skillId, "localsetup-") ==> SanitizeSkillIdAsWritten(skillId) != []
  {
    var r := SanitizeSkillIdAsWritten(skillId);
    if skillId != [] {
      var s := CleanSkillId(skillId);
      if MatchesSkillIdPattern(s) {
        var n := if IsLocalsetupId(s) then |s| else |s| - 1;
        assert IsLocalsetupId(s[..n]) by {
          if IsLocalsetupId(s) {
            assert s[..n] == s;
          }
        }
        LocalsetupIdChars(s[..n]);
        forall i | 0 <= i < |r| - 1 ensures r[i] != '.' {
          assert r[i] == s[..n][i];
        }
      } else {
        forall i | 0 <= i < |r| ensures r[i] != '.' {
          assert r[i] == if IsIdChar(s[i]) then s[i] else '_';
        }
      }
      if StartsWith(skillId, "localsetup-") {
        PrefixedIdClean(skillId);
      }
    }
    assert NoDotDot(r);
    NoDotDotIff(r);
  }

  /** The longest file name POSIX file systems commonly accept (NAME_MAX). */
  const NameMax: nat := 255

  /** On a `localsetup-` directory name a file system can hold (no NUL, at
      most NameMax characters) the as-written sanitizer and the corrected one
      agree: neither Findings case can arise from a real directory. */
  lemma AsWrittenAgreesOnDirNames(skillId: string)
    requires StartsWith(skillId, "localsetup-") && '\0' !in skillId && |skillId| <= NameMax
    ensures SanitizeSkillIdAsWritten(skillId) == SanitizeSkillId(skillId)
  {
    PrefixedIdClean(skillId);
    var x := Strip(skillId);
    StripKeepsAbsent(skillId, '\0');
    ReplaceAbsentChar(x, '\0', "");
    assert CleanSkillId(skillId) == x;
    assert IsSpace('\n');
    SanitizeSkillIdAgrees(skillId);
  }

  // ---------------------------------------------------------------------
  // _sanitize_snippet_for_report

  /** No control character and no carriage return. */
  predicate ReportClean(s: string)
  {
    forall i :: 0 <= i < |s| ==> !IsControlChar(s[i]) && s[i] != '\r'
  }

  lemma ReportCleanPiece(t: string, v: string)
    requires ReportClean(t) && Contains(t, v)
    ensures ReportClean(v)
  {
    var j := IndexOf(t, v).value;
    forall i | 0 <= i < |v| ensures !IsControlChar(v[i]) && v[i] != '\r' {
      assert v[i] == t[j..j + |v|][i] == t[j + i];
    }
  }

  lemma ReportCleanSuffix(s: string, n: nat)
    requires ReportClean(s)
    ensures ReportClean(TakeLast(s, n))
  {
    var t := TakeLast(s, n);
    forall i | 0 <= i < |t| ensures !IsControlChar(t[i]) && t[i] != '\r' {
      assert t[i] == s[|s| - |t| + i];
    }
  }

  /** Control characters removed, line endings normalised to "\n", ends trimmed. */
  lemma ReportCleanStrip(x: string)
    requires ReportClean(x)
    ensures ReportClean(Strip(x))
  {
    var s := Strip(x);
    StripCharsFrom(x);
    var k := StripOffset(x);
    forall i | 0 <= i < |s| ensures !IsControlChar(s[i]) && s[i] != '\r' {
      assert s[i] == x[k + i];
    }
  }

  function NormalizeSnippet(text: string): (s: string)
    ensures ReportClean(s)
    ensures s != [] ==> !IsSpace(s[0]) && !IsSpace(s[|s| - 1])
  {
    var s1 := RemoveControlChars(text);
    var s2 := Replace(s1, "\r\n", "\n");
    var s3 := Replace(s2, "\r", "\n");
    NormalizeClean(s1);
    ReportCleanStrip(s3);
    Strip(s3)
  }

  /** Normalising line endings of a text without control characters leaves
      neither control characters nor carriage returns. */
  lemma NormalizeClean(s1: string)
    requires forall i :: 0 <= i < |s1| ==> !IsControlChar(s1[i])
    ensures ReportClean(Replace(Replace(s1, "\r\n", "\n"), "\r", "\n"))
  {
    var s2 := Replace(s1, "\r\n", "\n");
    forall i | 0 <= i < |s2| ensures !IsControlChar(s2[i]) {
      ReplaceChars(s1, "\r\n", "\n", i);
    }
    ReplaceCharByChar(s2, '\r', '\n');
  }

  /** The placeholder text has none of the characters the sanitizer removes. */
  lemma EmptySnippetClean()
    ensures ReportClean(EmptySnippet)
    ensures !IsSpace(EmptySnippet[0]) && !IsSpace(EmptySnippet[|EmptySnippet| - 1])
  {
  }

  /** What follows the first line feed of `t`, or all of `t` without one. */
  function AfterFirstLine(t: string): (u: string)
    ensures |u| <= |t| && u == t[|t| - |u|..]
    ensures '\n' in t ==> |u| < |t| && t[|t| - |u| - 1] == '\n' && '\n' !in t[..|t| - |u| - 1]
    ensures '\n' !in t ==> u == t
  {
    match IndexOfChar(t, '\n')
    case Some(k) => t[k + 1..]
    case None => t
  }

  lemma StripOfSuffixContained(t: string, u: string)
    requires |u| <= |t| && u == t[|t| - |u|..]
    ensures Contains(t, Strip(u))
  {
    var a, v := StripOffset(u), Strip(u);
    StripCharsFrom(u);
    var j := |t| - |u| + a;
    forall i | 0 <= i < |v| ensures t[j..j + |v|][i] == v[i] {
      assert v[i] == u[a + i] == t[j + i];
    }
    assert t[j..j + |v|] == v;
    assert OccursAt(t, v, j);
  }

  /** The last `SnippetMaxReport` characters of an over-long snippet, without
      the partial line they start with when they hold a line break, trimmed. */
  function SnippetTail(s: string): (r: string)
    requires |s| > SnippetMaxReport
    ensures |r| <= SnippetMaxReport
    ensures Contains(TakeLast(s, SnippetMaxReport), r)
    ensures r == Strip(AfterFirstLine(TakeLast(s, SnippetMaxReport)))
    ensures r != [] ==> !IsSpace(r[0]) && !IsSpace(r[|r| - 1])
  {
    var t := TakeLast(s, SnippetMaxReport);
    var u := AfterFirstLine(t);
    StripOfSuffixContained(t, u);
    assert |Strip(u)| <= |u| <= |t| <= SnippetMaxReport;
    Strip(u)
  }

  /** The cut snippet of an over-long text, or the placeholder when nothing is left. */
  function LongSnippet(s: string): (r: string)
    requires |s| > SnippetMaxReport && ReportClean(s)
    ensures r != [] && |r| <= SnippetMaxReport && ReportClean(r)
    ensures r == EmptySnippet || Contains(TakeLast(s, SnippetMaxReport), r)
    ensures var u := Strip(AfterFirstLine(TakeLast(s, SnippetMaxReport)));
      r == if u == [] then EmptySnippet else u
    ensures !IsSpace(r[0]) && !IsSpace(r[|r| - 1])
  {
    var v := SnippetTail(s);
    EmptySnippetClean();
    ReportCleanSuffix(s, SnippetMaxReport);
    ReportCleanPiece(TakeLast(s, SnippetMaxReport), v);
    if v == [] then EmptySnippet else v
  }

  /** The snippet embedded in the report. */
  function SanitizeSnippet(text: string): (r: string)
    ensures r != [] && |r| <= SnippetMaxReport
    ensures ReportClean(r)
    ensures text == [] ==> r == EmptySnippet
    ensures text != [] && 0 < |NormalizeSnippet(text)| <= SnippetMaxReport ==> r == NormalizeSnippet(text)
    ensures |NormalizeSnippet(text)| > SnippetMaxReport ==>
      r == EmptySnippet || Contains(TakeLast(NormalizeSnippet(text), SnippetMaxReport), r)
    ensures |NormalizeSnippet(text)| > SnippetMaxReport ==>
      var u := Strip(AfterFirstLine(TakeLast(NormalizeSnippet(text), SnippetMaxReport)));
      r == if u == [] then EmptySnippet else u
    ensures !IsSpace(r[0]) && !IsSpace(r[|r| - 1])
  {
    EmptySnippetClean();
    if text == [] then EmptySnippet
    else
      var s := NormalizeSnippet(text);
      if |s| > SnippetMaxReport then LongSnippet(s)
      else if s == [] then EmptySnippet
      else s
  }
}
