// The skill validation scan: a pattern file kept fresh on disk, a
// content-safety scan of a skill's SKILL.md body and its scripts/assets with
// keyword and regular-expression patterns, and a heuristic for long runs of
// non-Latin script that may hide a prompt.
module SkillValidationScan {
  import opened Wrappers
  import opened Text
  import opened Seqs
  import opened SplitFirst
  import SkillImporterScan

  // ---------------------------------------------------------------------
  // Foreign-script detection

  /** Closed code-point ranges of non-Latin natural-language scripts: Cyrillic,
      Hebrew, Arabic, Arabic Supplement, Devanagari, Thai, Hiragana, Katakana,
      CJK Unified Ideographs and Hangul Syllables. */
  const ForeignScriptRanges: seq<(int, int)> := [
    (0x0400, 0x04FF), (0x0590, 0x05FF), (0x0600, 0x06FF), (0x0750, 0x077F),
    (0x0900, 0x097F), (0x0E00, 0x0E7F), (0x3040, 0x309F), (0x30A0, 0x30FF),
    (0x4E00, 0x9FFF), (0xAC00, 0xD7AF)]

  predicate InRange(o: int, range: (int, int))
  {
    range.0 <= o <= range.1
  }

  /** The range loop of `_is_foreign_script_char`: true as soon as one range
      holds the code point. */
  function InSomeRange(o: int, ranges: seq<(int, int)>): (b: bool)
    ensures b <==> exists i :: 0 <= i < |ranges| && InRange(o, ranges[i])
    decreases |ranges|
  {
    if ranges == [] then false
    else if InRange(o, ranges[0]) then true
    else
      var b := InSomeRange(o, ranges[1..]);
      assert forall i :: 1 <= i < |ranges| ==> ranges[i] == ranges[1..][i - 1];
      b
  }

  /** `_is_foreign_script_char`. */
  predicate IsForeign(c: char)
  {
    InSomeRange(c as int, ForeignScriptRanges)
  }

  /** ASCII, Latin-1 and the Latin extensions (all below U+0400) are never foreign. */
  lemma LatinNotForeign(c: char)
    requires (c as int) < 0x0400
    ensures !IsForeign(c)
  {
  }

  /** A character of every listed script is foreign: both ends of each range count. */
  lemma RangeEndsForeign(i: nat, o: int)
    requires i < |ForeignScriptRanges| && (o == ForeignScriptRanges[i].0 || o == ForeignScriptRanges[i].1)
    ensures IsForeign(o as char)
  {
    assert InRange((o as char) as int, ForeignScriptRanges[i]);
  }

  /** The value of the `run` counter after `s`: the number of characters at its
      end that satisfy `inScript`. */
  function TrailingRun(s: string, inScript: char -> bool): (n: nat)
    ensures n <= |s|
    decreases |s|
  {
    if s == [] || !inScript(s[|s| - 1]) then 0
    else 1 + TrailingRun(s[..|s| - 1], inScript)
  }

  /** The counter counts the longest suffix of class characters. */
  lemma {:induction false} TrailingRunSuffix(s: string, inScript: char -> bool)
    ensures forall j :: |s| - TrailingRun(s, inScript) <= j < |s| ==> inScript(s[j])
    ensures TrailingRun(s, inScript) < |s| ==> !inScript(s[|s| - 1 - TrailingRun(s, inScript)])
    decreases |s|
  {
    if s != [] && inScript(s[|s| - 1]) {
      var init := s[..|s| - 1];
      TrailingRunSuffix(init, inScript);
      assert forall j :: 0 <= j < |init| ==> init[j] == s[j];
    }
  }

  /** `n` consecutive characters satisfying `inScript` start at index `i`. */
  predicate RunAt(text: string, i: int, n: nat, inScript: char -> bool)
  {
    0 <= i && i + n <= |text| && forall j :: i <= j < i + n ==> inScript(text[j])
  }

  /** What `has_substantial_foreign_language` promises: a run of `minRun`
      consecutive script characters.  For `minRun <= 0` the counter is only
      consulted after a script character, so then one such character is needed. */
  predicate Flagged(text: string, minRun: int, inScript: char -> bool)
  {
    if minRun >= 1 then exists i :: 0 <= i <= |text| && RunAt(text, i, minRun, inScript)
    else exists k :: 0 <= k < |text| && inScript(text[k])
  }

  /** A suffix of `n` script characters makes the counter reach at least `n`. */
  lemma {:induction false} RunGivesTrailing(s: string, n: nat, inScript: char -> bool)
    requires n <= |s|
    requires forall j :: |s| - n <= j < |s| ==> inScript(s[j])
    ensures TrailingRun(s, inScript) >= n
    decreases n
  {
    if n > 0 {
      var init := s[..|s| - 1];
      forall j | |init| - (n - 1) <= j < |init| ensures inScript(init[j]) {
        assert init[j] == s[j];
      }
      RunGivesTrailing(init, n - 1, inScript);
    }
  }

  /** A counter that reaches `minRun` at a class character means a run. */
  lemma ReachedGivesFlag(text: string, k: nat, minRun: int, inScript: char -> bool)
    requires k < |text| && inScript(text[k]) && TrailingRun(text[..k + 1], inScript) >= minRun
    ensures Flagged(text, minRun, inScript)
  {
    var s := text[..k + 1];
    TrailingRunSuffix(s, inScript);
    if minRun >= 1 {
      var i := k + 1 - minRun;
      forall j | i <= j < i + minRun ensures inScript(text[j]) {
        assert s[j] == text[j];
      }
      assert RunAt(text, i, minRun, inScript);
    }
  }

  /** A counter that stayed below `minRun` at every class character means no run. */
  lemma NeverReachedNoFlag(text: string, minRun: int, inScript: char -> bool)
    requires forall j :: 0 <= j < |text| && inScript(text[j]) ==> TrailingRun(text[..j + 1], inScript) < minRun
    ensures !Flagged(text, minRun, inScript)
  {
    if minRun >= 1 {
      forall i | 0 <= i <= |text| && RunAt(text, i, minRun, inScript) ensures false {
        var k := i + minRun - 1;
        var s := text[..k + 1];
        forall j | |s| - minRun <= j < |s| ensures inScript(s[j]) {
          assert s[j] == text[j];
        }
        RunGivesTrailing(s, minRun, inScript);
      }
    }
  }

  /** The loop of `has_substantial_foreign_language`, for any character class:
      the counter grows on a class character, resets on any other, and the scan
      stops once it reaches `minRun`. */
  method HasLongRun(text: string, minRun: int, inScript: char -> bool) returns (b: bool)
    ensures b <==> Flagged(text, minRun, inScript)
  {
    var run := 0;
    for k := 0 to |text|
      invariant run == TrailingRun(text[..k], inScript)
      invariant forall j :: 0 <= j < k && inScript(text[j]) ==> TrailingRun(text[..j + 1], inScript) < minRun
    {
      TrailingStep(text, k, inScript);
      if inScript(text[k]) {
        run := run + 1;
        if run >= minRun {
          ReachedGivesFlag(text, k, minRun, inScript);
          return true;
        }
      } else {
        run := 0;
      }
    }
    NeverReachedNoFlag(text, minRun, inScript);
    return false;
  }

  /** The counter after one more character. */
  lemma TrailingStep(text: string, k: nat, inScript: char -> bool)
    requires k < |text|
    ensures TrailingRun(text[..k + 1], inScript) == if inScript(text[k]) then TrailingRun(text[..k], inScript) + 1 else 0
  {
    assert text[..k + 1][..k] == text[..k];
  }

  /** `has_substantial_foreign_language` (the default `min_run` is 5). */
  method HasSubstantialForeignLanguage(text: string, minRun: int) returns (b: bool)
    ensures b <==> Flagged(text, minRun, IsForeign)
  {
    b := HasLongRun(text, minRun, IsForeign);
  }

  // ---------------------------------------------------------------------
  // Output sanitising

  const OutputMaxFieldLen := 2000

  predicate IsControlOrDel(c: char)
  {
    (c as int) < 0x20 || (c as int) == 0x7F
  }

  predicate Displayable(c: char)
  {
    !IsControlOrDel(c)
  }

  /** The `out` list joined: every control character and DEL turned into a space. */
  function Printable(s: string): (r: string)
    ensures |r| == |s|
    ensures forall i :: 0 <= i < |s| ==> r[i] == if IsControlOrDel(s[i]) then ' ' else s[i]
  {
    SubstituteOutside(s, Displayable, ' ')
  }

  /** What `sanitize_for_output` prints for `s`; a zero `maxLen` disables the cap. */
  function SanitizedForOutput(s: string, maxLen: int): string
  {
    if s == [] then []
    else
      var t := Strip(Printable(s));
      if maxLen != 0 && |t| > maxLen then SliceTo(t, maxLen - 3) + "..." else t
  }

  /** `sanitize_for_output`. */
  method SanitizeForOutput(s: string, maxLen: int) returns (r: string)
    ensures r == SanitizedForOutput(s, maxLen)
  {
    if s == [] {
      return "";
    }
    var out: string := [];
    for k := 0 to |s|
      invariant out == Printable(s[..k])
    {
      assert s[..k + 1][..k] == s[..k];
      if IsControlOrDel(s[k]) {
        out := out + [' '];
      } else {
        out := out + [s[k]];
      }
    }
    assert s[..|s|] == s;
    r := Strip(out);
    if maxLen != 0 && |r| > maxLen {
      r := SliceTo(r, maxLen - 3) + "...";
    }
  }

  /** With a cap of at least 3 the output never exceeds it; a longer cleaned
      text is cut to exactly `maxLen` characters ending in "...", and a shorter
      one is kept whole. */
  lemma SanitizedForOutputLength(s: string, maxLen: int)
    requires maxLen >= 3
    ensures |SanitizedForOutput(s, maxLen)| <= maxLen
    ensures var t := Strip(Printable(s));
      if |t| > maxLen then SanitizedForOutput(s, maxLen) == t[..maxLen - 3] + "..." && |SanitizedForOutput(s, maxLen)| == maxLen
      else SanitizedForOutput(s, maxLen) == t
  {
    if s == [] {
      assert Printable(s) == [];
    }
  }

  /** No control character or DEL ever reaches the output. */
  lemma SanitizedForOutputClean(s: string, maxLen: int)
    ensures forall i :: 0 <= i < |SanitizedForOutput(s, maxLen)| ==> !IsControlOrDel(SanitizedForOutput(s, maxLen)[i])
  {
    if s != [] {
      var p := Printable(s);
      var t := Strip(p);
      StripClean(p);
      if maxLen != 0 && |t| > maxLen {
        var u := SliceTo(t, maxLen - 3);
        assert forall i :: 0 <= i < |u| ==> u[i] == t[i];
        var r := u + "...";
        assert forall i :: 0 <= i < |r| ==> r[i] == if i < |u| then u[i] else '.';
      }
    }
  }

  lemma StripClean(p: string)
    requires forall i :: 0 <= i < |p| ==> !IsControlOrDel(p[i])
    ensures forall i :: 0 <= i < |Strip(p)| ==> !IsControlOrDel(Strip(p)[i])
  {
    StripCharsFrom(p);
  }

  /** Sanitising printed output again changes nothing (for the default cap, any
      cap of at least 3, or no cap). */
  lemma SanitizedForOutputIdempotent(s: string, maxLen: int)
    requires maxLen == 0 || maxLen >= 3
    ensures SanitizedForOutput(SanitizedForOutput(s, maxLen), maxLen) == SanitizedForOutput(s, maxLen)
  {
    var r := SanitizedForOutput(s, maxLen);
    if r != [] {
      SanitizedForOutputClean(s, maxLen);
      var p := Printable(r);
      assert p == r;
      var t := Strip(Printable(s));
      if maxLen != 0 && |t| > maxLen {
        SanitizedForOutputLength(s, maxLen);
        assert r[|r| - 1] == '.';
        assert maxLen - 3 > 0 ==> r[0] == t[0];
        assert maxLen - 3 == 0 ==> r[0] == '.';
      }
      StripNoEdgeSpace(r);
    }
  }

  // ---------------------------------------------------------------------
  // Frontmatter

  const Marker := "---"

  /** What follows the second occurrence of `sep`: the third part of Python's
      `split(sep, 2)` when there are three. */
  function AfterSecond(text: string, sep: string): (r: Option<string>)
    requires sep != []
    ensures !Contains(text, sep) ==> r.None?
  {
    match SplitOnce(text, sep)
    case None => None
    case Some((_, rest)) =>
      match SplitOnce(rest, sep)
      case None => None
      case Some((_, c)) => Some(c)
  }

  /** The text after the second `sep` without leading line feeds, or the text
      itself when it holds fewer than two. */
  function StripAfterSecond(text: string, sep: string): string
    requires sep != []
  {
    match AfterSecond(text, sep)
    case None => text
    case Some(c) => LStripChars(c, {'\n'})
  }

  /** `strip_frontmatter`, the above for `---`. */
  function StripFrontmatter(text: string): (r: string)
    ensures !Contains(text, Marker) ==> r == text
  {
    StripAfterSecond(text, Marker)
  }

  /** The three parts around the first two occurrences of `sep`. */
  lemma AfterSecondParts(text: string, sep: string) returns (a: string, b: string, c: string)
    requires sep != [] && AfterSecond(text, sep).Some?
    ensures text == a + sep + b + sep + c && !Contains(a, sep) && !Contains(b, sep)
    ensures AfterSecond(text, sep) == Some(c)
  {
    var cut1 := SplitOnce(text, sep).value;
    a := cut1.0;
    var rest := cut1.1;
    var cut2 := SplitOnce(rest, sep).value;
    b, c := cut2.0, cut2.1;
    RegroupFive(a, sep, b, sep, c);
  }

  /** A changed result is what follows the first two markers, without leading
      line feeds. */
  lemma StripFrontmatterShape(text: string) returns (a: string, b: string, c: string)
    ensures StripFrontmatter(text) == text ||
      (text == a + Marker + b + Marker + c && !Contains(a, Marker) && !Contains(b, Marker)
       && StripFrontmatter(text) == LStripChars(c, {'\n'}))
  {
    a, b, c := [], [], [];
    if AfterSecond(text, Marker).Some? {
      a, b, c := AfterSecondParts(text, Marker);
    }
  }

  /** After `sep + pre + sep`, with `pre` holding no earlier occurrence, comes
      `rest`. */
  lemma AfterSecondOf(pre: string, rest: string, sep: string)
    requires sep != [] && FirstAfter(pre, sep)
    ensures AfterSecond(sep + pre + sep + rest, sep) == Some(rest)
  {
    var tail := pre + sep + rest;
    LeadingSplit(sep, tail);
    SplitOnceFirst(pre, sep, rest);
    RegroupFour(sep, pre, sep, rest);
  }

  /** A text that starts with `sep` splits into nothing and the rest. */
  lemma LeadingSplit(sep: string, tail: string)
    requires sep != []
    ensures SplitOnce(sep + tail, sep) == Some(([], tail))
  {
    assert FirstAfter([], sep) by {
      ContainsIff(sep[..|sep| - 1], sep);
    }
    SplitOnceFirst([], sep, tail);
    assert [] + sep + tail == sep + tail;
  }

  lemma RegroupFour(a: string, b: string, c: string, d: string)
    ensures a + (b + c + d) == a + b + c + d
  {
  }

  /** Text with only one marker comes back unchanged. */
  lemma SingleMarkerUnchanged(a: string, b: string)
    requires !Contains(a, Marker) && (a == [] || a[|a| - 1] != '-')
    requires !Contains(b, Marker)
    ensures StripFrontmatter(a + Marker + b) == a + Marker + b
  {
    SkillImporterScan.FirstBoundaryAfter(a, b);
    var text := a + Marker + b;
    assert text[..|a|] == a && text[|a| + 3..] == b;
  }

  /** A document `---fm---body` whose frontmatter holds no marker and does not
      end with `-` loses exactly the frontmatter block and the line feeds after it. */
  lemma BodyAfterFrontmatter(fm: string, body: string)
    requires !Contains(fm, Marker) && (fm == [] || fm[|fm| - 1] != '-')
    ensures StripFrontmatter(Marker + fm + Marker + body) == LStripChars(body, {'\n'})
  {
    var s := fm + Marker + body;
    SkillImporterScan.FirstBoundaryAfter(fm, body);
    IndexOfFirst(s, Marker);
    assert s[..|fm|] == fm;
    AfterSecondOf(fm, body, Marker);
  }

  // ---------------------------------------------------------------------
  // Loading patterns

  /** The categories `load_patterns` reads, in this order. */
  const PatternCategories: seq<string> :=
    ["prompt_injection", "exfiltration", "code_execution", "scripts_and_assets", "crypto_mining", "obfuscation"]

  /** A loaded pattern: `keywords` is the entry's `keywords` value when that is a
      list, `regex` its `regex` value when that is truthy. */
  datatype ScanPattern = ScanPattern(scope: Json, id: Json, description: Json, keywords: Option<seq<Json>>, regex: Option<Json>)

  /** Python `v or default`. */
  function Or(v: Json, default: Json): (r: Json)
    ensures Truthy(v) ==> r == v
    ensures !Truthy(v) ==> r == default
  {
    if Truthy(v) then v else default
  }

  /** A pattern that can match anything: a non-empty keyword list or a regex. */
  predicate Usable(p: ScanPattern)
  {
    (p.keywords.Some? && p.keywords.value != []) || p.regex.Some?
  }

  /** The pattern an entry of a category list yields, if any. */
  function PatternOf(item: Json): (r: Option<ScanPattern>)
    ensures r.Some? <==> item.JObj? && ((Get(item.fields, "keywords").JList? && Truthy(Get(item.fields, "keywords"))) || Truthy(Get(item.fields, "regex")))
    ensures r.Some? ==> Usable(r.value) && Truthy(r.value.scope)
    ensures r.Some? ==>
      (r.value.scope == Or(Get(item.fields, "scope"), JStr("all"))
       && r.value.id == Or(Get(item.fields, "id"), JStr(""))
       && r.value.description == Or(Get(item.fields, "description"), JStr("")))
  {
    match item
    case JObj(fields) =>
      var keywords := match Get(fields, "keywords") case JList(items) => Some(items) case _ => None;
      var regex := if Truthy(Get(fields, "regex")) then Some(Get(fields, "regex")) else None;
      if (keywords.Some? && keywords.value != []) || regex.Some? then
        Some(ScanPattern(Or(Get(fields, "scope"), JStr("all")), Or(Get(fields, "id"), JStr("")),
                         Or(Get(fields, "description"), JStr("")), keywords, regex))
      else None
    case _ => None
  }

  /** What one category list contributes. */
  function ItemStep(item: Json, i: nat): seq<ScanPattern>
  {
    match PatternOf(item)
    case None => []
    case Some(p) => [p]
  }

  /** What one category contributes: nothing unless its value is a list. */
  function CategoryStep(data: map<string, Json>): (string, nat) -> seq<ScanPattern>
  {
    (c: string, n: nat) =>
      match Get(data, c)
      case JList(items) => FlatMap(ItemStep, items, 0)
      case _ => []
  }

  /** The result of `load_patterns` for the parsed document `data`: a falsy
      document counts as an empty mapping, and any other non-mapping fails on
      `data.get`. */
  function LoadedPatterns(data: Json): Result<seq<ScanPattern>>
  {
    match Or(data, JObj(map[]))
    case JObj(m) => Ok(FlatMap(CategoryStep(m), PatternCategories, 0))
    case _ => Err("AttributeError: the pattern document is not a mapping")
  }

  /** The inner loop of `load_patterns` over one category list. */
  method CategoryPatterns(items: seq<Json>) returns (out: seq<ScanPattern>)
    ensures out == FlatMap(ItemStep, items, 0)
  {
    out := [];
    for i := 0 to |items|
      invariant out == FlatMap(ItemStep, items[..i], 0)
    {
      FlatMapPrefixStep(ItemStep, items, 0, i);
      var q := PatternOf(items[i]);
      if q.Some? {
        out := out + [q.value];
      }
    }
    assert items[..|items|] == items;
  }

  /** `load_patterns` on an already parsed document: categories in order, and
      within each the usable dict entries in order. */
  method LoadPatterns(data: Json) returns (r: Result<seq<ScanPattern>>)
    ensures r == LoadedPatterns(data)
  {
    var d := Or(data, JObj(map[]));
    if !d.JObj? {
      return Err("AttributeError: the pattern document is not a mapping");
    }
    var out := CollectCategories(d.fields, PatternCategories);
    r := Ok(out);
  }

  /** The outer loop of `load_patterns`: the categories `cats` in order. */
  method CollectCategories(m: map<string, Json>, cats: seq<string>) returns (out: seq<ScanPattern>)
    ensures out == FlatMap(CategoryStep(m), cats, 0)
  {
    ghost var step := CategoryStep(m);
    out := [];
    for k := 0 to |cats|
      invariant out == FlatMap(step, cats[..k], 0)
    {
      FlatMapPrefixStep(step, cats, 0, k);
      var items := Get(m, cats[k]);
      if items.JList? {
        var more := CategoryPatterns(items.items);
        out := out + more;
      }
    }
    assert cats[..|cats|] == cats;
  }

  /** Every loaded pattern has a truthy scope and a keyword list or a regex. */
  lemma LoadedPatternsUsable(data: Json)
    ensures LoadedPatterns(data).Ok? ==> forall p :: p in LoadedPatterns(data).value ==> Usable(p) && Truthy(p.scope)
  {
    var d := Or(data, JObj(map[]));
    if d.JObj? {
      var P := (p: ScanPattern) => Usable(p) && Truthy(p.scope);
      forall k | 0 <= k < |PatternCategories|
        ensures forall y :: y in CategoryStep(d.fields)(PatternCategories[k], k) ==> P(y)
      {
        match Get(d.fields, PatternCategories[k])
        case JList(items) => FlatMapAll(ItemStep, items, 0, P);
        case _ =>
      }
      FlatMapAll(CategoryStep(d.fields), PatternCategories, 0, P);
    }
  }

  /** Keys other than the six categories are ignored. */
  lemma LoadedPatternsOnlyCategories(m1: map<string, Json>, m2: map<string, Json>)
    requires forall k :: 0 <= k < |PatternCategories| ==> Get(m1, PatternCategories[k]) == Get(m2, PatternCategories[k])
    ensures LoadedPatterns(JObj(m1)) == LoadedPatterns(JObj(m2))
  {
    LoadedFromMap(m1);
    LoadedFromMap(m2);
    FlatMapCongruent(CategoryStep(m1), CategoryStep(m2), PatternCategories, 0);
  }

  lemma LoadedFromMap(m: map<string, Json>)
    ensures LoadedPatterns(JObj(m)) == Ok(FlatMap(CategoryStep(m), PatternCategories, 0))
  {
    if m == map[] {
      assert Or(JObj(m), JObj(map[])) == JObj(m);
    }
  }

  // ---------------------------------------------------------------------
  // Matching

  /** One hit: pattern id, 1-based line and column, the keyword or regex that
      matched, and the pattern's description. */
  datatype Hit = Hit(patternId: Json, line: nat, col: nat, matched: Json, description: Json)

  /** `line.lower().find(kw.lower())`, None standing for -1. */
  function Find(line: string, kw: string): Option<nat>
  {
    IndexOf(Lower(line), Lower(kw))
  }

  /** `kw` is a string that the lowered search does not find. */
  predicate Misses(line: string, kw: Json)
  {
    kw.JStr? && Find(line, kw.s).None?
  }

  /** The keyword loop: the position in the lowered line of the first listed
      keyword found there, with that keyword; a keyword that is not a string
      fails on `.lower()` when the loop reaches it. */
  function FirstKeyword(line: string, kws: seq<Json>): (r: Result<Option<(nat, Json)>>)
    ensures r.Ok? && r.value.Some? ==> r.value.value.1 in kws
    decreases |kws|
  {
    if kws == [] then Ok(None)
    else if !kws[0].JStr? then Err("AttributeError: keyword has no attribute 'lower'")
    else
      match Find(line, kws[0].s)
      case Some(pos) => Ok(Some((pos, kws[0])))
      case None => FirstKeyword(line, kws[1..])
  }

  /** The keyword loop reports the first listed keyword that it finds. */
  lemma {:induction false} FirstKeywordFound(line: string, kws: seq<Json>)
    requires FirstKeyword(line, kws).Ok? && FirstKeyword(line, kws).value.Some?
    ensures exists i :: 0 <= i < |kws| && FirstFound(line, kws, i, FirstKeyword(line, kws).value.value)
    decreases |kws|
  {
    var r := FirstKeyword(line, kws);
    if Find(line, kws[0].s).Some? {
      assert FirstFound(line, kws, 0, r.value.value);
    } else {
      var tail := kws[1..];
      FirstKeywordFound(line, tail);
      var i :| 0 <= i < |tail| && FirstFound(line, tail, i, r.value.value);
      assert forall j :: 1 <= j < |kws| ==> kws[j] == tail[j - 1];
      assert FirstFound(line, kws, i + 1, r.value.value);
    }
  }

  /** The keyword loop reports nothing exactly when every keyword is a string
      that it does not find. */
  lemma {:induction false} FirstKeywordNone(line: string, kws: seq<Json>)
    ensures FirstKeyword(line, kws) == Ok(None) <==> forall j :: 0 <= j < |kws| ==> Misses(line, kws[j])
    decreases |kws|
  {
    if kws != [] && kws[0].JStr? && Find(line, kws[0].s).None? {
      var tail := kws[1..];
      FirstKeywordNone(line, tail);
      assert forall j :: 1 <= j < |kws| ==> kws[j] == tail[j - 1];
    }
  }

  /** The keyword loop fails only on a non-string keyword reached before any hit. */
  lemma {:induction false} FirstKeywordFails(line: string, kws: seq<Json>)
    requires FirstKeyword(line, kws).Err?
    ensures exists i :: 0 <= i < |kws| && FailsAt(line, kws, i)
    decreases |kws|
  {
    if !kws[0].JStr? {
      assert FailsAt(line, kws, 0);
    } else {
      var tail := kws[1..];
      FirstKeywordFails(line, tail);
      var i :| 0 <= i < |tail| && FailsAt(line, tail, i);
      assert forall j :: 1 <= j < |kws| ==> kws[j] == tail[j - 1];
      assert FailsAt(line, kws, i + 1);
    }
  }

  /** Keyword `i` is not a string and every keyword before it is missed. */
  predicate FailsAt(line: string, kws: seq<Json>, i: nat)
    requires i < |kws|
  {
    !kws[i].JStr? && forall j :: 0 <= j < i ==> Misses(line, kws[j])
  }

  /** Keyword `i` is the first one found, at position `hit.0`. */
  predicate FirstFound(line: string, kws: seq<Json>, i: nat, hit: (nat, Json))
    requires i < |kws|
  {
    (forall j :: 0 <= j < i ==> Misses(line, kws[j]))
    && kws[i].JStr? && hit.1 == kws[i] && Find(line, kws[i].s) == Some(hit.0)
  }

  /** The keyword loop of `find_matches_in_text`, which stops at the first hit. */
  method FindFirstKeyword(line: string, kws: seq<Json>) returns (r: Result<Option<(nat, Json)>>)
    ensures r == FirstKeyword(line, kws)
  {
    for k := 0 to |kws|
      invariant FirstKeyword(line, kws) == FirstKeyword(line, kws[k..])
    {
      assert kws[k..][1..] == kws[k + 1..];
      var kw := kws[k];
      if !kw.JStr? {
        return Err("AttributeError: keyword has no attribute 'lower'");
      }
      var pos := Find(line, kw.s);
      if pos.Some? {
        return Ok(Some((pos.value, kw)));
      }
    }
    return Ok(None);
  }

  /** The keyword hit of a pattern on one line, if any. */
  function KeywordHits(p: ScanPattern, line: string, num: nat): (r: Result<seq<Hit>>)
    ensures r.Ok? ==> |r.value| <= 1
    ensures r.Ok? ==> forall h :: h in r.value ==> h.line == num && h.col >= 1
  {
    if p.keywords.Some? && p.keywords.value != [] then
      match FirstKeyword(line, p.keywords.value)
      case Err(e) => Err(e)
      case Ok(None) => Ok([])
      case Ok(Some((pos, kw))) => Ok([Hit(Or(p.id, kw), num, pos + 1, kw, p.description)])
    else Ok([])
  }

  /** The regex hit of a pattern on one line, if any.  `search(regex, line)` is
      the start of Python's `re.search` match, None for no match or for a
      pattern `re` rejects; a regex that is not a string fails. */
  function RegexHits(p: ScanPattern, line: string, num: nat, search: (string, string) -> Option<nat>): (r: Result<seq<Hit>>)
    ensures r.Ok? ==> |r.value| <= 1
    ensures r.Ok? ==> forall h :: h in r.value ==> h.line == num && h.col >= 1
  {
    if p.regex.Some? && Truthy(p.regex.value) then
      match p.regex.value
      case JStr(rx) =>
        (match search(rx, line)
         case None => Ok([])
         case Some(start) => Ok([Hit(Or(p.id, p.regex.value), num, start + 1, p.regex.value, p.description)]))
      case _ => Err("TypeError: first argument must be string or compiled pattern")
    else Ok([])
  }

  /** Everything one pattern reports for line number `num`: first its keyword
      hit, then its regex hit. */
  function LineHits(p: ScanPattern, line: string, num: nat, search: (string, string) -> Option<nat>): (r: Result<seq<Hit>>)
  {
    match KeywordHits(p, line, num)
    case Err(e) => Err(e)
    case Ok(a) =>
      match RegexHits(p, line, num, search)
      case Err(e) => Err(e)
      case Ok(b) => Ok(a + b)
  }

  /** Per pattern and line there is at most one keyword hit: the first listed
      keyword found case-insensitively, at its 1-based column, reported under
      the pattern id or, for a pattern without an id, under the keyword. */
  lemma KeywordHitIsFirstKeyword(p: ScanPattern, line: string, num: nat, search: (string, string) -> Option<nat>)
    requires p.keywords.Some? && p.keywords.value != []
    requires LineHits(p, line, num, search).Ok?
    ensures var hits := LineHits(p, line, num, search).value;
      var kws := p.keywords.value;
      match FirstKeyword(line, kws)
      case Ok(Some((pos, kw))) =>
        |hits| >= 1 && hits[0] == Hit(Or(p.id, kw), num, pos + 1, kw, p.description)
        && exists i :: 0 <= i < |kws| && FirstFound(line, kws, i, (pos, kw))
      case _ => forall j :: 0 <= j < |kws| ==> Misses(line, kws[j])
  {
    var kws := p.keywords.value;
    FirstKeywordNone(line, kws);
    if FirstKeyword(line, kws).Ok? && FirstKeyword(line, kws).value.Some? {
      FirstKeywordFound(line, kws);
    }
  }

  /** A pattern without a regex reports at most one hit per line. */
  lemma AtMostOneHitWithoutRegex(p: ScanPattern, line: string, num: nat, search: (string, string) -> Option<nat>)
    requires p.regex.None?
    ensures LineHits(p, line, num, search).Ok? ==> |LineHits(p, line, num, search).value| <= 1
  {
  }

  /** The hits of one pattern on lines numbered from `first`. */
  function PatternLines(p: ScanPattern, lines: seq<string>, first: nat, search: (string, string) -> Option<nat>): (r: Result<seq<Hit>>)
    decreases |lines|
  {
    if lines == [] then Ok([])
    else
      match PatternLines(p, lines[..|lines| - 1], first, search)
      case Err(e) => Err(e)
      case Ok(a) =>
        match LineHits(p, lines[|lines| - 1], first + |lines| - 1, search)
        case Err(e) => Err(e)
        case Ok(b) => Ok(a + b)
  }

  /** A scope filter admits patterns scoped to it or to "all". */
  predicate InScope(scopeFilter: string, p: ScanPattern)
  {
    p.scope == JStr(scopeFilter) || p.scope == JStr("all")
  }

  function Admits(scopeFilter: string): ScanPattern -> bool
  {
    (p: ScanPattern) => InScope(scopeFilter, p)
  }

  /** What `find_matches_in_text` returns for the lines of a text: the patterns
      in order, each over all lines; the first failure aborts the call. */
  function Matches(patterns: seq<ScanPattern>, lines: seq<string>, scopeFilter: string, search: (string, string) -> Option<nat>): (r: Result<seq<Hit>>)
    decreases |patterns|
  {
    if patterns == [] then Ok([])
    else
      match Matches(patterns[..|patterns| - 1], lines, scopeFilter, search)
      case Err(e) => Err(e)
      case Ok(a) =>
        var p := patterns[|patterns| - 1];
        if !InScope(scopeFilter, p) then Ok(a)
        else
          match PatternLines(p, lines, 1, search)
          case Err(e) => Err(e)
          case Ok(b) => Ok(a + b)
  }

  /** The keyword part of the line loop's body. */
  method ScanKeywords(p: ScanPattern, line: string, num: nat) returns (r: Result<seq<Hit>>)
    ensures r == KeywordHits(p, line, num)
  {
    if p.keywords.Some? && p.keywords.value != [] {
      var m := FindFirstKeyword(line, p.keywords.value);
      if m.Err? {
        return Err(m.error);
      }
      if m.value.Some? {
        var (pos, kw) := m.value.value;
        return Ok([Hit(Or(p.id, kw), num, pos + 1, kw, p.description)]);
      }
    }
    return Ok([]);
  }

  /** The regex part of the line loop's body. */
  method ScanRegex(p: ScanPattern, line: string, num: nat, search: (string, string) -> Option<nat>) returns (r: Result<seq<Hit>>)
    ensures r == RegexHits(p, line, num, search)
  {
    if p.regex.Some? && Truthy(p.regex.value) {
      if !p.regex.value.JStr? {
        return Err("TypeError: first argument must be string or compiled pattern");
      }
      var m := search(p.regex.value.s, line);
      if m.Some? {
        return Ok([Hit(Or(p.id, p.regex.value), num, m.value + 1, p.regex.value, p.description)]);
      }
    }
    return Ok([]);
  }

  /** The body of the line loop for one pattern and line number `num`. */
  method ScanLine(p: ScanPattern, line: string, num: nat, search: (string, string) -> Option<nat>) returns (r: Result<seq<Hit>>)
    ensures r == LineHits(p, line, num, search)
  {
    var a := ScanKeywords(p, line, num);
    if a.Err? {
      return a;
    }
    var b := ScanRegex(p, line, num, search);
    if b.Err? {
      return b;
    }
    return Ok(a.value + b.value);
  }

  /** A failure on a prefix of the lines is the failure of the whole pattern. */
  lemma {:induction false} PatternLinesErr(p: ScanPattern, lines: seq<string>, n: nat, first: nat, search: (string, string) -> Option<nat>)
    requires n <= |lines| && PatternLines(p, lines[..n], first, search).Err?
    ensures PatternLines(p, lines, first, search) == PatternLines(p, lines[..n], first, search)
    decreases |lines|
  {
    if n < |lines| {
      var init := lines[..|lines| - 1];
      assert init[..n] == lines[..n];
      PatternLinesErr(p, init, n, first, search);
    } else {
      assert lines[..n] == lines;
    }
  }

  /** The line loop of `find_matches_in_text` for one pattern: `line_num`
      counts from 1. */
  method PatternLineHits(p: ScanPattern, lines: seq<string>, search: (string, string) -> Option<nat>) returns (r: Result<seq<Hit>>)
    ensures r == PatternLines(p, lines, 1, search)
  {
    var results: seq<Hit> := [];
    for k := 0 to |lines|
      invariant PatternLines(p, lines[..k], 1, search) == Ok(results)
    {
      assert lines[..k + 1][..k] == lines[..k];
      var h := ScanLine(p, lines[k], k + 1, search);
      if h.Err? {
        PatternLinesErr(p, lines, k + 1, 1, search);
        return h;
      }
      results := results + h.value;
    }
    assert lines[..|lines|] == lines;
    return Ok(results);
  }

  /** A failure on a prefix of the patterns is the failure of the whole call. */
  lemma {:induction false} MatchesErr(patterns: seq<ScanPattern>, lines: seq<string>, scopeFilter: string, search: (string, string) -> Option<nat>, n: nat)
    requires n <= |patterns| && Matches(patterns[..n], lines, scopeFilter, search).Err?
    ensures Matches(patterns, lines, scopeFilter, search) == Matches(patterns[..n], lines, scopeFilter, search)
    decreases |patterns|
  {
    if n < |patterns| {
      var init := patterns[..|patterns| - 1];
      assert init[..n] == patterns[..n];
      MatchesErr(init, lines, scopeFilter, search, n);
    } else {
      assert patterns[..n] == patterns;
    }
  }

  /** `find_matches_in_text`: patterns out of scope are skipped, every other is
      tried on every line of `text.splitlines()`. */
  method FindMatchesInText(text: string, patterns: seq<ScanPattern>, scopeFilter: string,
                           search: (string, string) -> Option<nat>) returns (r: Result<seq<Hit>>)
    ensures r == Matches(patterns, Lines(text), scopeFilter, search)
  {
    var lines := Lines(text);
    var results: seq<Hit> := [];
    for k := 0 to |patterns|
      invariant Matches(patterns[..k], lines, scopeFilter, search) == Ok(results)
    {
      assert patterns[..k + 1][..k] == patterns[..k];
      var p := patterns[k];
      if InScope(scopeFilter, p) {
        var h := PatternLineHits(p, lines, search);
        if h.Err? {
          MatchesErr(patterns, lines, scopeFilter, search, k + 1);
          return h;
        }
        results := results + h.value;
      }
    }
    assert patterns[..|patterns|] == patterns;
    return Ok(results);
  }

  /** Only patterns whose scope is the filter or "all" take part: dropping all
      others gives the same result. */
  lemma {:induction false} MatchesInScopeOnly(patterns: seq<ScanPattern>, lines: seq<string>, scopeFilter: string, search: (string, string) -> Option<nat>)
    ensures Matches(patterns, lines, scopeFilter, search) == Matches(Filter(patterns, Admits(scopeFilter)), lines, scopeFilter, search)
    decreases |patterns|
  {
    if patterns != [] {
      var init := patterns[..|patterns| - 1];
      var p := patterns[|patterns| - 1];
      MatchesInScopeOnly(init, lines, scopeFilter, search);
      var kept := Filter(patterns, Admits(scopeFilter));
      if InScope(scopeFilter, p) {
        assert kept == Filter(init, Admits(scopeFilter)) + [p];
        assert kept[..|kept| - 1] == Filter(init, Admits(scopeFilter));
      } else {
        assert kept == Filter(init, Admits(scopeFilter));
      }
    }
  }

  /** Hits of one pattern lie on the given lines, at a column of at least 1. */
  lemma {:induction false} PatternLinesPositions(p: ScanPattern, lines: seq<string>, first: nat, search: (string, string) -> Option<nat>)
    ensures var r := PatternLines(p, lines, first, search);
      r.Ok? ==> forall h :: h in r.value ==> first <= h.line < first + |lines| && h.col >= 1
    decreases |lines|
  {
    if lines != [] {
      PatternLinesPositions(p, lines[..|lines| - 1], first, search);
    }
  }

  /** Line and column numbers of every hit are 1-based positions in the text. */
  lemma {:induction false} MatchesPositions(patterns: seq<ScanPattern>, lines: seq<string>, scopeFilter: string, search: (string, string) -> Option<nat>)
    ensures var r := Matches(patterns, lines, scopeFilter, search);
      r.Ok? ==> forall h :: h in r.value ==> 1 <= h.line <= |lines| && h.col >= 1
    decreases |patterns|
  {
    if patterns != [] {
      MatchesPositions(patterns[..|patterns| - 1], lines, scopeFilter, search);
      PatternLinesPositions(patterns[|patterns| - 1], lines, 1, search);
    }
  }

  // ---------------------------------------------------------------------
  // Pattern file freshness

  /** Seven days in microseconds, the resolution of Python's `timedelta`. */
  const StaleAge: int := 7 * 24 * 60 * 60 * 1000000

  /** What reading the pattern file yields: no file, a read or YAML failure, or
      the parsed document. */
  datatype PatternFile = NoFile | ReadFailed | Parsed(doc: Json)

  /** `ensure_pattern_file`.  `age(u)` is the age in microseconds of the
      timestamp `u` (with `Z` read as `+00:00` and a naive time taken as UTC),
      or None when `datetime.fromisoformat` rejects it; `fetched` tells whether
      fetching and writing a missing file succeeded.  A truthy document that is
      not a mapping fails on `data.get`. */
  function EnsurePatternFile(file: PatternFile, fetchIfMissing: bool, fetched: bool, age: string -> Option<int>): (r: Result<(bool, string)>)
    ensures file == NoFile ==>
      r == Ok(if !fetchIfMissing then (false, "missing") else if fetched then (true, "fetched") else (false, "fetch_failed"))
    ensures file == ReadFailed ==> r == Ok((false, "read_failed"))
    ensures r.Err? <==> file.Parsed? && !Or(file.doc, JObj(map[])).JObj?
    ensures file.Parsed? && r.Ok? ==> r.value == (true, "ok") || r.value == (false, "stale")
  {
    match file
    case NoFile =>
      Ok(if !fetchIfMissing then (false, "missing") else if fetched then (true, "fetched") else (false, "fetch_failed"))
    case ReadFailed => Ok((false, "read_failed"))
    case Parsed(doc) =>
      match Or(doc, JObj(map[]))
      case JObj(m) =>
        var updated := Or(Get(m, "updated"), JStr(""));
        if !Truthy(updated) then Ok((true, "ok"))
        else if !updated.JStr? then Ok((true, "ok"))
        else
          (match age(updated.s)
           case Some(a) => if a >= StaleAge then Ok((false, "stale")) else Ok((true, "ok"))
           case None => Ok((true, "ok")))
      case _ => Err("AttributeError: the pattern document is not a mapping")
  }

  /** The file is reported stale exactly when its `updated` string parses to an
      age of seven days or more. */
  lemma StaleIff(m: map<string, Json>, fetchIfMissing: bool, fetched: bool, age: string -> Option<int>)
    ensures EnsurePatternFile(Parsed(JObj(m)), fetchIfMissing, fetched, age) == Ok((false, "stale")) <==>
      var u := Get(m, "updated");
      u.JStr? && u.s != [] && age(u.s).Some? && age(u.s).value >= StaleAge
  {
    if m == map[] {
      assert Or(JObj(m), JObj(map[])) == JObj(m);
    }
  }

  /** A document without a truthy `updated` value is accepted as fresh. */
  lemma NoUpdatedIsOk(m: map<string, Json>, fetchIfMissing: bool, fetched: bool, age: string -> Option<int>)
    requires !Truthy(Get(m, "updated"))
    ensures EnsurePatternFile(Parsed(JObj(m)), fetchIfMissing, fetched, age) == Ok((true, "ok"))
  {
    if m == map[] {
      assert Or(JObj(m), JObj(map[])) == JObj(m);
    }
  }

  // ---------------------------------------------------------------------
  // Report and exit status

  const Prefix := "Content safety: "
  const NoConcerns := Prefix + "No concerns"
  const Review := Prefix + "REVIEW"
  const NonLatinNote := "  Possible non-Latin language content (e.g. CJK, Cyrillic, Arabic). Manual review for hidden prompts."

  /** A hit together with the file it was found in. */
  datatype ReportedHit = ReportedHit(file: string, hit: Hit)

  /** Python `str(v)`: a string itself, any other value as `show` renders it. */
  function Str(v: Json, show: Json -> string): (r: string)
    ensures v.JStr? ==> r == v.s
  {
    if v.JStr? then v.s else show(v)
  }

  function Sanitized(s: string): string
  {
    SanitizedForOutput(s, OutputMaxFieldLen)
  }

  /** The printed line of one hit; `repr` is Python's `repr` of a string.  A
      description that is neither falsy nor a string fails in
      `sanitize_for_output`. */
  function HitLine(h: ReportedHit, show: Json -> string, repr: string -> string): Result<string>
  {
    var desc := Or(h.hit.description, JStr(""));
    if !desc.JStr? then Err("TypeError: description is not a string")
    else
      Ok("  file:" + Sanitized(h.file) + " line:" + NatToStr(h.hit.line) + " col:" + NatToStr(h.hit.col)
         + " pattern:" + Sanitized(Str(h.hit.patternId, show))
         + " matched:" + repr(Sanitized(Str(h.hit.matched, show)))
         + " description:" + Sanitized(desc.s))
  }

  /** The hit lines printed before the first failure, and whether none failed. */
  function HitLines(hits: seq<ReportedHit>, show: Json -> string, repr: string -> string): (r: (seq<string>, bool))
    ensures |r.0| <= |hits|
    ensures r.1 <==> forall i :: 0 <= i < |hits| ==> HitLine(hits[i], show, repr).Ok?
    ensures r.1 ==> |r.0| == |hits| && forall i :: 0 <= i < |hits| ==> r.0[i] == HitLine(hits[i], show, repr).value
    decreases |hits|
  {
    if hits == [] then ([], true)
    else
      match HitLine(hits[0], show, repr)
      case Err(_) => ([], false)
      case Ok(line) =>
        var rest := HitLines(hits[1..], show, repr);
        assert forall i :: 1 <= i < |hits| ==> hits[i] == hits[1..][i - 1];
        ([line] + rest.0, rest.1)
  }

  /** The standard output of a scan and whether printing it completed. */
  function ScanReport(hits: seq<ReportedHit>, nonEnglish: bool, show: Json -> string, repr: string -> string): (r: (seq<string>, bool))
    ensures r.0 != [] && (r.0[0] == NoConcerns || r.0[0] == Review)
    ensures hits == [] && !nonEnglish ==> r == ([NoConcerns], true)
    ensures nonEnglish ==> |r.0| >= 2 && r.0[1] == NonLatinNote
    ensures r.1 && (hits != [] || nonEnglish) ==> |r.0| == 1 + (if nonEnglish then 1 else 0) + |hits|
  {
    if hits == [] && !nonEnglish then ([NoConcerns], true)
    else
      var lines := HitLines(hits, show, repr);
      ([Review] + (if nonEnglish then [NonLatinNote] else []) + lines.0, lines.1)
  }

  /** "No concerns" is printed exactly when there are no hits and no
      foreign-language flag. */
  lemma NoConcernsIff(hits: seq<ReportedHit>, nonEnglish: bool, show: Json -> string, repr: string -> string)
    ensures ScanReport(hits, nonEnglish, show, repr).0[0] == NoConcerns <==> hits == [] && !nonEnglish
  {
    assert NoConcerns[16] != Review[16];
  }

  /** The exit status after the pattern-file step: 2 for a stale file, 1 for
      any other failure (an exception included), 0 otherwise. */
  function EnsureExit(ensured: Result<(bool, string)>): (code: int)
    ensures code == 2 <==> ensured == Ok((false, "stale"))
    ensures code == 0 <==> ensured.Ok? && ensured.value.0
    ensures code in {0, 1, 2}
  {
    match ensured
    case Err(_) => 1
    case Ok((ok, msg)) => if ok then 0 else if msg == "stale" then 2 else 1
  }

  /** The exit status of `main`.  `scanned` is None when `load_patterns` or
      the directory scan raised, and otherwise whether printing the report
      completed; a report with concerns still exits 0. */
  function MainExit(nullByte: bool, ensureOnly: bool, skillDirGiven: bool, isDir: bool, underRoot: bool,
                    ensured: Result<(bool, string)>, scanned: Option<bool>): (code: int)
    ensures nullByte ==> code == 1
    ensures !nullByte && ensureOnly ==> code == EnsureExit(ensured)
    ensures !nullByte && !ensureOnly && !skillDirGiven ==> code == 2
    ensures !nullByte && !ensureOnly && skillDirGiven && (!isDir || !underRoot) ==> code == 1
    ensures code == 0 <==>
      (!nullByte && (ensureOnly || (skillDirGiven && isDir && underRoot && scanned == Some(true)))
       && ensured.Ok? && ensured.value.0)
  {
    if nullByte then 1
    else if ensureOnly then EnsureExit(ensured)
    else if !skillDirGiven then 2
    else if !isDir || !underRoot then 1
    else if EnsureExit(ensured) != 0 then EnsureExit(ensured)
    else match scanned
      case None => 1
      case Some(ok) => if ok then 0 else 1
  }
}
