// The public skill index refresher: skill entries parsed from an awesome-list
// page and from the Anthropic skills listing are normalised, deduplicated by
// URL and enriched with summaries, capability/requirement/risk hints and
// quality signals before the index document is written.
module RefreshPublicSkillIndex {
  import opened Wrappers
  import opened Text
  import opened Seqs

  // ---------------------------------------------------------------------
  // sanitize_text

  const MaxFieldLen := 512
  const DescMax := 300

  predicate IsControlOrDel(c: char)
  {
    (c as int) < 0x20 || (c as int) == 0x7F
  }

  /** The `cleaned` list joined: line feed, carriage return and tab become a
      space, every other control character and DEL is dropped. */
  function Cleaned(s: string): (r: string)
    ensures |r| <= |s|
    ensures forall i :: 0 <= i < |r| ==> !IsControlOrDel(r[i])
    decreases |s|
  {
    if s == [] then []
    else
      var c := s[|s| - 1];
      Cleaned(s[..|s| - 1]) + (if c == '\n' || c == '\r' || c == '\t' then " " else if IsControlOrDel(c) then [] else [c])
  }

  /** Text without control characters is left as it is. */
  lemma {:induction false} CleanedClean(s: string)
    requires forall i :: 0 <= i < |s| ==> !IsControlOrDel(s[i])
    ensures Cleaned(s) == s
    decreases |s|
  {
    if s != [] {
      CleanedClean(s[..|s| - 1]);
      assert s[..|s| - 1] + [s[|s| - 1]] == s;
    }
  }

  /** What `sanitize_text` returns; a zero `maxLen` disables the cap. */
  function SanitizedText(value: string, maxLen: int): string
  {
    if value == [] then []
    else
      var out := Collapse(Cleaned(value));
      if maxLen != 0 && |out| > maxLen then SliceTo(out, maxLen - 3) + "..." else out
  }

  /** The final `.strip()` of `sanitize_text` changes nothing on collapsed text. */
  lemma FinalStripNoop(s: string)
    ensures Strip(Collapse(s)) == Collapse(s)
  {
    CollapseProperties(s);
    CollapsedStrip(Collapse(s));
  }

  /** `sanitize_text`. */
  method SanitizeText(value: string, maxLen: int) returns (r: string)
    ensures r == SanitizedText(value, maxLen)
  {
    if value == [] {
      return "";
    }
    var cleaned: string := [];
    for k := 0 to |value|
      invariant cleaned == Cleaned(value[..k])
    {
      assert value[..k + 1][..k] == value[..k];
      var c := value[k];
      if c == '\n' || c == '\r' || c == '\t' {
        cleaned := cleaned + " ";
      } else if IsControlOrDel(c) {
      } else {
        cleaned := cleaned + [c];
      }
    }
    assert value[..|value|] == value;
    FinalStripNoop(cleaned);
    r := Strip(Collapse(cleaned));
    if maxLen != 0 && |r| > maxLen {
      r := SliceTo(r, maxLen - 3) + "...";
    }
  }

  /** With a cap of at least 3 the result never exceeds it; a longer collapsed
      text is cut to exactly `maxLen` characters ending in "...". */
  lemma SanitizedTextLength(value: string, maxLen: int)
    requires maxLen >= 3
    ensures |SanitizedText(value, maxLen)| <= maxLen
    ensures var out := Collapse(Cleaned(value));
      value != [] && |out| > maxLen ==> SanitizedText(value, maxLen) == out[..maxLen - 3] + "..." && |SanitizedText(value, maxLen)| == maxLen
  {
  }

  /** The result holds no control character, and its whitespace is single
      spaces between other characters. */
  lemma SanitizedTextClean(value: string, maxLen: int)
    requires maxLen == 0 || maxLen >= 3
    ensures var r := SanitizedText(value, maxLen);
      Collapsed(r) && (r == [] || !IsSpace(r[0])) && forall i :: 0 <= i < |r| ==> !IsControlOrDel(r[i])
  {
    if value != [] {
      var out := Collapse(Cleaned(value));
      CollapseClean(Cleaned(value));
      if maxLen != 0 && |out| > maxLen {
        TruncatedCollapsed(out, maxLen - 3);
      }
    }
  }

  /** Collapsing text without control characters keeps it so. */
  lemma CollapseClean(c: string)
    requires forall i :: 0 <= i < |c| ==> !IsControlOrDel(c[i])
    ensures var out := Collapse(c);
      Collapsed(out) && (out == [] || !IsSpace(out[0])) && forall i :: 0 <= i < |out| ==> !IsControlOrDel(out[i])
  {
    var out := Collapse(c);
    CollapseProperties(c);
    forall i | 0 <= i < |out| ensures !IsControlOrDel(out[i]) {
      if out[i] != ' ' {
        var j :| 0 <= j < |c| && c[j] == out[i];
      }
    }
  }

  /** A collapsed text cut after `m` characters and ended with "..." is still
      collapsed. */
  lemma TruncatedCollapsed(out: string, m: nat)
    requires Collapsed(out) && m <= |out| && (out == [] || !IsSpace(out[0]))
    requires forall i :: 0 <= i < |out| ==> !IsControlOrDel(out[i])
    ensures var r := out[..m] + "...";
      Collapsed(r) && !IsSpace(r[0]) && forall i :: 0 <= i < |r| ==> !IsControlOrDel(r[i])
  {
    var r := out[..m] + "...";
    assert forall i :: 0 <= i < |r| ==> r[i] == if i < m then out[i] else '.';
    forall i | 0 <= i < |r| && IsSpace(r[i])
      ensures r[i] == ' ' && 0 < i < |r| - 1 && !IsSpace(r[i - 1]) && !IsSpace(r[i + 1])
    {
      assert r[i] == out[i];
    }
  }

  /** Sanitising sanitised text again changes nothing (for no cap or a cap of
      at least 3, which covers every cap the script uses). */
  lemma SanitizedTextIdempotent(value: string, maxLen: int)
    requires maxLen == 0 || maxLen >= 3
    ensures SanitizedText(SanitizedText(value, maxLen), maxLen) == SanitizedText(value, maxLen)
  {
    var r := SanitizedText(value, maxLen);
    if r != [] {
      SanitizedTextClean(value, maxLen);
      CleanedClean(r);
      CollapseOfCollapsed(r);
      if maxLen != 0 {
        SanitizedTextLength(value, maxLen);
      }
    }
  }

  // ---------------------------------------------------------------------
  // sanitize_url: the scheme and authority of RFC 3986 sections 3.1-3.2, as
  // urllib.parse.urlsplit separates them

  predicate IsSchemeChar(c: char)
  {
    IsAsciiLetter(c) || IsAsciiDigit(c) || c == '+' || c == '-' || c == '.'
  }

  /** Where the scheme ends: the first ':' when the text before it is a
      letter followed by scheme characters. */
  function SchemeEnd(url: string): (r: Option<nat>)
    ensures r.Some? ==> (0 < r.value < |url| && url[r.value] == ':' && IsAsciiLetter(url[0])
      && forall j :: 0 <= j < r.value ==> IsSchemeChar(url[j]))
  {
    match IndexOfChar(url, ':')
    case None => None
    case Some(i) =>
      if i > 0 && IsAsciiLetter(url[0]) && forall j :: 0 <= j < i ==> IsSchemeChar(url[j]) then Some(i) else None
  }

  /** `urlsplit(url).scheme`: the lower-cased scheme, or "" when there is none. */
  function UrlScheme(url: string): string
  {
    match SchemeEnd(url)
    case None => ""
    case Some(i) => Lower(url[..i])
  }

  /** Index of the first '/', '?' or '#' of `s`, or |s|. */
  function AuthorityLen(s: string): (n: nat)
    ensures n <= |s| && forall j :: 0 <= j < n ==> s[j] !in {'/', '?', '#'}
    ensures n < |s| ==> s[n] in {'/', '?', '#'}
    decreases |s|
  {
    if s == [] || s[0] in {'/', '?', '#'} then 0
    else 1 + AuthorityLen(s[1..])
  }

  /** `urlsplit(url).netloc`: after the scheme, a `//` and the text up to the
      next '/', '?' or '#'. */
  function Netloc(url: string): (r: string)
  {
    var rest := match SchemeEnd(url) case None => url case Some(i) => url[i + 1..];
    if StartsWith(rest, "//") then rest[2..][..AuthorityLen(rest[2..])] else ""
  }

  /** urlsplit's "Invalid IPv6 URL" check: the netloc holds only one of `[`
      and `]`. It applies whatever the scheme is. */
  predicate UnbalancedBrackets(url: string)
  {
    ('[' in Netloc(url)) != (']' in Netloc(url))
  }

  const InvalidIpv6 := "Invalid IPv6 URL"

  /** `sanitize_url`: the cleaned candidate when it is an http(s) URL with a
      netloc, "" when it is not, and Err where `urlparse` raises ValueError. */
  function SanitizeUrl(value: string): (r: Result<string>)
    ensures r.Err? <==> SanitizedText(value, 2048) != [] && UnbalancedBrackets(SanitizedText(value, 2048))
    ensures r.Ok? ==> r.value == [] || r.value == SanitizedText(value, 2048)
    ensures r.Ok? ==> |r.value| <= 2048
    ensures r.Ok? ==> (r.value != [] <==> (SanitizedText(value, 2048) != []
      && UrlScheme(SanitizedText(value, 2048)) in {"http", "https"} && Netloc(SanitizedText(value, 2048)) != []))
  {
    SanitizedTextLength(value, 2048);
    var candidate := SanitizedText(value, 2048);
    if candidate == [] then Ok([])
    else if UnbalancedBrackets(candidate) then Err(InvalidIpv6)
    else if UrlScheme(candidate) !in {"http", "https"} || Netloc(candidate) == [] then Ok([])
    else Ok(candidate)
  }

  /** An accepted URL passes `sanitize_url` again unchanged, so the second
      call in `enrich_entry` neither raises nor alters it. */
  lemma ResanitizedUrl(value: string)
    requires SanitizeUrl(value).Ok? && SanitizeUrl(value).value != []
    ensures SanitizeUrl(Strip(SanitizeUrl(value).value)) == SanitizeUrl(value)
  {
    var u := SanitizeUrl(value).value;
    SanitizedTextClean(value, 2048);
    assert !IsSpace(u[|u| - 1]);
    StripNoEdgeSpace(u);
    SanitizedTextIdempotent(value, 2048);
  }

  /** Lower-casing commutes with taking a prefix. */
  lemma LowerPrefix(url: string, n: nat)
    requires n <= |url|
    ensures Lower(url)[..n] == Lower(url[..n])
  {
  }

  /** The characters a lower-cased URL starts with, given its scheme `w`. */
  lemma LoweredStart(url: string, i: nat)
    requires i + 3 < |url| && url[i] == ':' && url[i + 1] == '/' && url[i + 2] == '/'
    requires url[i + 3] !in {'/', '?', '#'}
    ensures Lower(url)[..i + 3] == Lower(url[..i]) + "://"
    ensures Lower(url)[i + 3] !in {'/', '?', '#'}
  {
    LowerPrefix(url, i + 3);
    assert url[..i + 3] == url[..i] + "://";
    assert Lower(url[..i] + "://") == Lower(url[..i]) + "://";
  }

  /** A URL with an http or https scheme and a non-empty authority starts,
      ignoring ASCII case, with `http://` or `https://` and an authority
      character. */
  lemma HttpUrlShape(url: string)
    requires UrlScheme(url) in {"http", "https"} && Netloc(url) != []
    ensures var u := Lower(url);
      (StartsWith(u, "http://") && |u| > 7 && u[7] !in {'/', '?', '#'})
      || (StartsWith(u, "https://") && |u| > 8 && u[8] !in {'/', '?', '#'})
  {
    var i := SchemeEnd(url).value;
    var w, u := Lower(url[..i]), Lower(url);
    assert |w| == i && w == UrlScheme(url);
    assert |w| + 3 < |u| && u[..|w| + 3] == w + "://" && u[|w| + 3] !in {'/', '?', '#'} by {
      AuthorityStart(url, i);
      LoweredStart(url, i);
    }
    SchemePrefix(u, w);
    if w == "http" {
      assert w + "://" == "http://";
    } else {
      assert w + "://" == "https://";
    }
  }

  /** A non-empty netloc after the scheme means `://` and an authority character. */
  lemma AuthorityStart(url: string, i: nat)
    requires SchemeEnd(url) == Some(i) && Netloc(url) != []
    ensures i + 3 < |url| && url[i] == ':' && url[i + 1] == '/' && url[i + 2] == '/'
    ensures url[i + 3] !in {'/', '?', '#'}
  {
    var rest := url[i + 1..];
    assert StartsWith(rest, "//") && AuthorityLen(rest[2..]) > 0;
    assert rest[..2] == "//";
    assert rest[0] == '/' && rest[1] == '/';
    assert url[i + 3] == rest[2..][0];
  }

  lemma SchemePrefix(u: string, w: string)
    requires |w| + 3 < |u| && u[..|w| + 3] == w + "://"
    ensures StartsWith(u, w + "://") && |u| > |w + "://"|
  {
  }

  /** Every URL `sanitize_url` accepts has that shape. */
  lemma AcceptedUrlShape(value: string)
    requires SanitizeUrl(value).Ok? && SanitizeUrl(value).value != []
    ensures var u := Lower(SanitizeUrl(value).value);
      (StartsWith(u, "http://") && |u| > 7 && u[7] !in {'/', '?', '#'})
      || (StartsWith(u, "https://") && |u| > 8 && u[8] !in {'/', '?', '#'})
  {
    HttpUrlShape(SanitizeUrl(value).value);
  }

  // ---------------------------------------------------------------------
  // _first_sentence

  const SummaryShortMax := 220

  predicate EndsSentence(c: char)
  {
    c == '.' || c == '!' || c == '?'
  }

  /** Where `re.split(r"(?<=[.!?])\s+", t, maxsplit=1)` cuts `t`, searching
      from `i`: the first whitespace right after '.', '!' or '?', or |t|. */
  function SentenceEnd(t: string, i: nat): (p: nat)
    requires 1 <= i <= |t|
    ensures i <= p <= |t|
    ensures p < |t| ==> IsSpace(t[p]) && EndsSentence(t[p - 1])
    ensures forall q :: i <= q < p ==> !(IsSpace(t[q]) && EndsSentence(t[q - 1]))
    decreases |t| - i
  {
    if i == |t| then i
    else if IsSpace(t[i]) && EndsSentence(t[i - 1]) then i
    else SentenceEnd(t, i + 1)
  }

  /** `_first_sentence`: the collapsed text up to its first sentence end,
      capped at 220 characters. */
  function FirstSentence(text: string): (r: string)
    ensures |r| <= SummaryShortMax
    ensures var t := Collapse(text); |r| <= |t| && r == t[..|r|]
    ensures Collapse(text) == [] <==> r == []
  {
    var t := Collapse(text);
    if t == [] then []
    else
      CollapseProperties(text);
      Take(t[..SentenceEnd(t, 1)], SummaryShortMax)
  }

  /** When the first sentence fits, it ends with '.', '!' or '?' followed in
      the text by a space, and no earlier sentence end exists. */
  lemma FirstSentenceEnds(text: string)
    requires var t := Collapse(text); t != [] && SentenceEnd(t, 1) < |t| && SentenceEnd(t, 1) <= SummaryShortMax
    ensures var t := Collapse(text); var r := FirstSentence(text);
      |r| == SentenceEnd(t, 1) && EndsSentence(r[|r| - 1]) && t[|r|] == ' '
      && forall q :: 1 <= q < |r| ==> !(IsSpace(t[q]) && EndsSentence(t[q - 1]))
  {
    CollapseProperties(text);
  }

  // ---------------------------------------------------------------------
  // infer_capabilities, infer_requirements, infer_risks

  /** A hint table: keys in dict order, each with its words. */
  type HintTable = seq<(string, seq<string>)>

  const CapabilityKeywords: HintTable := [
    ("pdf", ["pdf", "ocr", "document conversion", "docx", "report"]),
    ("docs", ["markdown", "documentation", "docs", "wiki", "readme"]),
    ("search", ["search", "discover", "lookup", "index"]),
    ("github", ["github", "pull request", "pr", "issue", "workflow"]),
    ("automation", ["automation", "pipeline", "ci", "cd", "deploy"]),
    ("testing", ["test", "pytest", "jest", "coverage", "lint"]),
    ("security", ["security", "scan", "vulnerability", "threat", "redact"]),
    ("data", ["api", "json", "yaml", "dataset", "parse", "extract"])]

  const RequirementHints: HintTable := [
    ("api_key", ["api key", "token", "credential", "auth", "oauth"]),
    ("external_service", ["api", "service", "saas", "cloud"]),
    ("python", ["python", "pip", "pytest"]),
    ("node", ["node", "npm", "javascript", "typescript"])]

  const RiskHints: HintTable := [
    ("external_network", ["http", "api", "github.com", "service", "remote"]),
    ("credential_usage", ["token", "api key", "credential", "oauth", "secret"]),
    ("file_write", ["write", "create", "save", "export", "generate"]),
    ("command_execution", ["shell", "command", "run", "execute", "terminal"])]

  /** `any(w in t for w in words)`. */
  predicate Mentions(t: string, words: seq<string>)
  {
    exists i :: 0 <= i < |words| && Contains(t, words[i])
  }

  function MentionedIn(t: string): ((string, seq<string>)) -> bool
  {
    (e: (string, seq<string>)) => Mentions(t, e.1)
  }

  function KeysOf(table: HintTable): (r: seq<string>)
    ensures |r| == |table| && forall i :: 0 <= i < |table| ==> r[i] == table[i].0
  {
    seq(|table|, i requires 0 <= i < |table| => table[i].0)
  }

  /** The keys whose words occur in `t`, in table order. */
  function Inferred(table: HintTable, t: string): seq<string>
  {
    KeysOf(Filter(table, MentionedIn(t)))
  }

  /** A key is inferred exactly when one of its words occurs in the text. */
  lemma InferredIff(table: HintTable, t: string, key: string)
    ensures key in Inferred(table, t) <==> exists i :: 0 <= i < |table| && table[i].0 == key && Mentions(t, table[i].1)
  {
    if key in Inferred(table, t) {
      var i := InferredSound(table, t, key);
    }
    if exists i :: 0 <= i < |table| && table[i].0 == key && Mentions(t, table[i].1) {
      var i :| 0 <= i < |table| && table[i].0 == key && Mentions(t, table[i].1);
      InferredComplete(table, t, i);
    }
  }

  lemma InferredSound(table: HintTable, t: string, key: string) returns (i: nat)
    requires key in Inferred(table, t)
    ensures i < |table| && table[i].0 == key && Mentions(t, table[i].1)
  {
    var f := Filter(table, MentionedIn(t));
    var k :| 0 <= k < |f| && f[k].0 == key;
    assert f[k] in table && MentionedIn(t)(f[k]);
    i :| 0 <= i < |table| && table[i] == f[k];
  }

  lemma InferredComplete(table: HintTable, t: string, i: nat)
    requires i < |table| && Mentions(t, table[i].1)
    ensures table[i].0 in Inferred(table, t)
  {
    var f := Filter(table, MentionedIn(t));
    FilterComplete(table, MentionedIn(t), i);
    var k :| 0 <= k < |f| && f[k] == table[i];
    assert KeysOf(f)[k] == table[i].0;
  }

  /** The loop shared by the three `infer_*` functions over the lower-cased text. */
  method InferKeys(text: string, table: HintTable) returns (out: seq<string>)
    ensures out == Inferred(table, Lower(text))
  {
    var t := Lower(text);
    ghost var p := MentionedIn(t);
    out := [];
    for k := 0 to |table|
      invariant out == KeysOf(Filter(table[..k], p))
    {
      FilterPrefixStep(table, p, k);
      var (key, words) := table[k];
      if Mentions(t, words) {
        out := out + [key];
      }
    }
    assert table[..|table|] == table;
  }

  method InferCapabilities(text: string) returns (out: seq<string>)
    ensures out == Inferred(CapabilityKeywords, Lower(text))
  {
    out := InferKeys(text, CapabilityKeywords);
  }

  method InferRequirements(text: string) returns (out: seq<string>)
    ensures out == Inferred(RequirementHints, Lower(text))
  {
    out := InferKeys(text, RequirementHints);
  }

  method InferRisks(text: string) returns (out: seq<string>)
    ensures out == Inferred(RiskHints, Lower(text))
  {
    out := InferKeys(text, RiskHints);
  }

  // ---------------------------------------------------------------------
  // parse_awesome_list: the SECTION_HEADER and AWESOME_LINE patterns as the
  // regular-expression engine matches them at the start of a line

  /** Number of leading whitespace characters. */
  function LeadingSpaces(s: string): (n: nat)
    ensures n <= |s| && (forall i :: 0 <= i < n ==> IsSpace(s[i])) && (n < |s| ==> !IsSpace(s[n]))
    decreases |s|
  {
    if s != [] && IsSpace(s[0]) then 1 + LeadingSpaces(s[1..]) else 0
  }

  /** Length of the longest prefix of `s` without `stop` (`[^stop]*`). */
  function RunWithout(s: string, stop: char): (n: nat)
    ensures n <= |s| && stop !in s[..n] && (n < |s| ==> s[n] == stop)
    decreases |s|
  {
    if s == [] || s[0] == stop then 0
    else
      var n := 1 + RunWithout(s[1..], stop);
      assert s[..n] == [s[0]] + s[1..][..n - 1];
      n
  }

  /** `\s*(.+)$` at the start of `s`: the text after the leading whitespace,
      or, when `s` is all whitespace, its last character (the engine gives
      one character back to `.+`). */
  function TailGroup(s: string): (r: Option<string>)
    ensures r.Some? <==> s != []
    ensures r.Some? ==> r.value != [] && |r.value| <= |s| && r.value == s[|s| - |r.value|..]
  {
    if s == [] then None
    else
      var k := LeadingSpaces(s);
      if k < |s| then Some(s[k..]) else Some(s[|s| - 1..])
  }

  /** Group 1 of `^##\s+(.+)$`, when the line matches. */
  function HeaderGroup(line: string): (r: Option<string>)
    ensures r.Some? ==> StartsWith(line, "##") && r.value != [] && |r.value| <= |line| && r.value == line[|line| - |r.value|..]
  {
    if !StartsWith(line, "##") then None
    else
      var rest := line[2..];
      var k := LeadingSpaces(rest);
      if k == 0 then None
      else if k < |rest| then Some(rest[k..])
      else if k >= 2 then Some(rest[k - 1..])
      else None
  }

  /** The three groups of an awesome-list entry line. */
  datatype EntryGroups = EntryGroups(name: string, url: string, desc: string)

  /** The groups of `^\s*-\s*\[([^\]]+)\]\(([^)]+)\)\s*-\s*(.+)$`, when the
      line matches, taken stage by stage. The bracketed groups cannot hold
      their closing character, so the engine never backtracks into them. */
  function EntryMatch(line: string): (r: Option<EntryGroups>)
    ensures r.Some? ==> (r.value.name != [] && ']' !in r.value.name && r.value.url != [] && ')' !in r.value.url
      && r.value.desc != [])
  {
    var a := LeadingSpaces(line);
    if a == |line| || line[a] != '-' then None else AfterDash(line[a + 1..])
  }

  /** `\s*\[` and the rest, after the leading dash. */
  function AfterDash(s: string): (r: Option<EntryGroups>)
    ensures r.Some? ==> (r.value.name != [] && ']' !in r.value.name && r.value.url != [] && ')' !in r.value.url
      && r.value.desc != [])
  {
    var b := LeadingSpaces(s);
    if b == |s| || s[b] != '[' then None else AfterBracket(s[b + 1..])
  }

  /** `([^\]]+)\]\(` and the rest, after the opening bracket. */
  function AfterBracket(s: string): (r: Option<EntryGroups>)
    ensures r.Some? ==> (r.value.name != [] && ']' !in r.value.name && r.value.url != [] && ')' !in r.value.url
      && r.value.desc != [])
  {
    var n := RunWithout(s, ']');
    if n == 0 || n == |s| || n + 1 == |s| || s[n + 1] != '(' then None
    else
      match AfterParen(s[n + 2..])
      case None => None
      case Some(p) => Some(EntryGroups(s[..n], p.0, p.1))
  }

  /** `([^)]+)\)` and the description part, after the opening parenthesis. */
  function AfterParen(s: string): (r: Option<(string, string)>)
    ensures r.Some? ==> r.value.0 != [] && ')' !in r.value.0 && r.value.1 != []
  {
    var u := RunWithout(s, ')');
    if u == 0 || u == |s| then None
    else
      match DescGroup(s[u + 1..])
      case None => None
      case Some(d) => Some((s[..u], d))
  }

  /** `\s*-\s*(.+)$`, after the closing parenthesis. */
  function DescGroup(s: string): (r: Option<string>)
    ensures r.Some? ==> r.value != []
  {
    var c := LeadingSpaces(s);
    if c == |s| || s[c] != '-' then None else TailGroup(s[c + 1..])
  }

  /** The canonical entry line `- [name](url) - desc`. */
  function EntryLine(name: string, url: string, desc: string): string
  {
    "- [" + name + "](" + url + ") - " + desc
  }

  /** A canonical entry line is matched with exactly its three parts. */
  lemma EntryLineMatches(name: string, url: string, desc: string)
    requires name != [] && ']' !in name && url != [] && ')' !in url
    requires desc != [] && !IsSpace(desc[0])
    ensures EntryMatch(EntryLine(name, url, desc)) == Some(EntryGroups(name, url, desc))
  {
    var utail := url + ") - " + desc;
    var rest := name + "](" + utail;
    assert EntryLine(name, url, desc) == "- [" + rest by {
      RegroupSix("- [", name, "](", url, ") - ", desc);
    }
    EntryStart(rest);
    ParenPartMatches(url, desc, utail);
    BracketPartMatches(name, utail, url, desc, rest);
  }

  lemma RegroupSix(a: string, n: string, b: string, u: string, c: string, d: string)
    ensures a + n + b + u + c + d == a + (n + b + (u + c + d))
  {
  }

  /** `^\s*-\s*\[` consumes exactly the `- [` a canonical line starts with. */
  lemma EntryStart(rest: string)
    ensures EntryMatch("- [" + rest) == AfterBracket(rest)
  {
    var line := "- [" + rest;
    assert line == ['-'] + ([' '] + (['['] + rest));
    assert LeadingSpaces(line) == 0;
    var s1 := line[1..];
    assert s1 == [' '] + (['['] + rest);
    assert LeadingSpaces(s1) == 1 by {
      assert s1[1..] == ['['] + rest;
      assert LeadingSpaces(s1[1..]) == 0;
    }
    assert s1[2..] == rest;
  }

  lemma BracketPartMatches(name: string, tail: string, url: string, desc: string, s: string)
    requires name != [] && ']' !in name
    requires AfterParen(tail) == Some((url, desc))
    requires s == name + "](" + tail
    ensures AfterBracket(s) == Some(EntryGroups(name, url, desc))
  {
    assert s == name + [']'] + ['('] + tail;
    var n := StopThenNext(name, ']', '(', tail, s);
  }

  /** `[^stop]*` ends at the stop character that follows `a`, and the
      character after it and the rest are where they were put. */
  lemma StopThenNext(a: string, stop: char, next: char, tail: string, s: string) returns (n: nat)
    requires stop !in a && s == a + [stop] + [next] + tail
    ensures n == |a| && RunWithout(s, stop) == n && n + 1 < |s| && s[n + 1] == next
    ensures s[..n] == a && s[n + 2..] == tail
  {
    n := |a|;
    assert s == a + ([stop] + ([next] + tail));
    RunWithoutStops(a, stop, [stop] + ([next] + tail));
    assert s[..n] == a;
    assert s[n + 2..] == tail;
  }

  lemma ParenPartMatches(url: string, desc: string, s: string)
    requires url != [] && ')' !in url
    requires desc != [] && !IsSpace(desc[0])
    requires s == url + ") - " + desc
    ensures AfterParen(s) == Some((url, desc))
  {
    var tail := " - " + desc;
    assert s == url + [')'] + tail by {
      assert ") - " == [')'] + " - ";
    }
    DescGroupMatches(desc, tail);
    StopThen(url, ')', tail, s);
  }

  lemma StopThen(a: string, stop: char, tail: string, s: string)
    requires stop !in a && s == a + [stop] + tail
    ensures RunWithout(s, stop) == |a| < |s| && s[..|a|] == a && s[|a| + 1..] == tail
  {
    assert s == a + ([stop] + tail);
    RunWithoutStops(a, stop, [stop] + tail);
    assert s[..|a|] == a;
  }

  lemma DescGroupMatches(desc: string, s: string)
    requires desc != [] && !IsSpace(desc[0])
    requires s == " - " + desc
    ensures DescGroup(s) == Some(desc)
  {
    assert s == [' '] + (['-'] + ([' '] + desc));
    assert LeadingSpaces(s) == 1 by {
      assert s[1..] == ['-'] + ([' '] + desc);
      assert LeadingSpaces(s[1..]) == 0;
    }
    var t := s[2..];
    assert t == [' '] + desc;
    assert LeadingSpaces(t) == 1 by {
      assert t[1..] == desc;
      assert LeadingSpaces(t[1..]) == 0;
    }
    assert t[1..] == desc;
  }

  lemma RunWithoutStops(a: string, stop: char, b: string)
    requires stop !in a && b != [] && b[0] == stop
    ensures RunWithout(a + b, stop) == |a|
  {
    assert (a + b)[|a|] == stop;
    assert (a + b)[..|a|] == a;
  }

  /** What one line of the list contributes. */
  datatype LineKind =
    | Header(category: string)
    | Entry(name: string, url: string, desc: string)
    | Skipped
    | UrlError

  /** One iteration of the loop of `parse_awesome_list`. */
  function Classify(line: string): (r: LineKind)
  {
    match HeaderGroup(line)
    case Some(g) => Header(SanitizedText(Strip(g), 120))
    case None =>
      match EntryMatch(line)
      case None => Skipped
      case Some(m) =>
        var name := SanitizedText(Strip(m.name), 140);
        var url := SanitizeUrl(Strip(m.url));
        var desc := SanitizedText(Strip(m.desc), DescMax);
        if url.Err? then UrlError
        else if name == [] || url.value == [] then Skipped
        else Entry(name, url.value, if |desc| > DescMax then SliceTo(desc, DescMax - 3) + "..." else desc)
  }

  /** The second description cap of `parse_awesome_list` never applies, because
      `sanitize_text` already capped it. */
  lemma SecondCapUnused(line: string)
    requires EntryMatch(line).Some?
    ensures |SanitizedText(Strip(EntryMatch(line).value.desc), DescMax)| <= DescMax
  {
    SanitizedTextLength(Strip(EntryMatch(line).value.desc), DescMax);
  }

  /** Every field a classified line yields is non-empty where it must be and
      within its cap. */
  lemma ClassifyBounds(line: string)
    ensures Classify(line).Header? ==> |Classify(line).category| <= 120
    ensures Classify(line).Entry? ==> (Classify(line).name != [] && |Classify(line).name| <= 140
      && Classify(line).url != [] && |Classify(line).url| <= 2048 && |Classify(line).desc| <= DescMax)
    ensures Classify(line).Entry? ==> SanitizeUrl(Strip(Classify(line).url)) == Ok(Classify(line).url)
  {
    match HeaderGroup(line)
    case Some(g) => SanitizedTextLength(Strip(g), 120);
    case None =>
      match EntryMatch(line)
      case None =>
      case Some(m) =>
        SanitizedTextLength(Strip(m.name), 140);
        SanitizedTextLength(Strip(m.desc), DescMax);
        if SanitizeUrl(Strip(m.url)).Ok? && SanitizeUrl(Strip(m.url)).value != [] {
          ResanitizedUrl(Strip(m.url));
        }
  }

  /** A skill entry as the script builds it; an empty category stands for an
      entry without the "category" key. */
  datatype SkillEntry = SkillEntry(name: string, description: string, url: string, sourceRegistry: string, category: string)

  /** `current_category` after the given lines. */
  function CategoryAfter(lines: seq<string>): string
  {
    if lines == [] then []
    else
      match Classify(lines[|lines| - 1])
      case Header(c) => c
      case _ => CategoryAfter(lines[..|lines| - 1])
  }

  /** The entry an entry line yields under the current category. */
  function EntryOf(kind: LineKind, registry: string, category: string): seq<SkillEntry>
  {
    match kind
    case Entry(name, url, desc) => [SkillEntry(name, if desc == [] then name else desc, url, registry, category)]
    case _ => []
  }

  /** What `parse_awesome_list` returns for the given lines. */
  function Parsed(lines: seq<string>, registry: string): seq<SkillEntry>
  {
    if lines == [] then []
    else
      var init := lines[..|lines| - 1];
      Parsed(init, registry) + EntryOf(Classify(lines[|lines| - 1]), registry, CategoryAfter(init))
  }

  /** Some line's URL makes `urlparse` raise, which ends `parse_awesome_list`. */
  predicate ParseRaises(lines: seq<string>)
  {
    lines != [] && (ParseRaises(lines[..|lines| - 1]) || Classify(lines[|lines| - 1]).UrlError?)
  }

  lemma ParseRaisesStep(lines: seq<string>, k: nat)
    requires k < |lines|
    ensures ParseRaises(lines[..k + 1]) <==> ParseRaises(lines[..k]) || Classify(lines[k]).UrlError?
  {
    assert lines[..k + 1][..k] == lines[..k];
  }

  /** Once some line has raised, the whole list raises. */
  lemma {:induction false} ParseRaisesPrefix(lines: seq<string>, n: nat)
    requires n <= |lines| && ParseRaises(lines[..n])
    ensures ParseRaises(lines)
    decreases |lines| - n
  {
    if n == |lines| {
      assert lines[..n] == lines;
    } else {
      ParseRaisesStep(lines, n);
      ParseRaisesPrefix(lines, n + 1);
    }
  }

  /** A single line whose URL raises makes the whole list raise. */
  lemma {:induction false} UrlErrorLineRaises(lines: seq<string>, k: nat)
    requires k < |lines| && Classify(lines[k]).UrlError?
    ensures ParseRaises(lines)
  {
    ParseRaisesStep(lines, k);
    ParseRaisesPrefix(lines, k + 1);
  }

  /** What `parse_awesome_list` returns, or the ValueError it raises. */
  function ParseResult(lines: seq<string>, registry: string): (r: Result<seq<SkillEntry>>)
    ensures r.Err? <==> ParseRaises(lines)
    ensures r.Ok? ==> r.value == Parsed(lines, registry)
  {
    if ParseRaises(lines) then Err(InvalidIpv6) else Ok(Parsed(lines, registry))
  }

  /** `parse_awesome_list`. */
  method ParseAwesomeList(text: string, registry: string) returns (r: Result<seq<SkillEntry>>)
    ensures r == ParseResult(Lines(text), registry)
  {
    var lines := Lines(text);
    var skills := [];
    var category := "";
    for k := 0 to |lines|
      invariant skills == Parsed(lines[..k], registry) && category == CategoryAfter(lines[..k])
      invariant !ParseRaises(lines[..k])
    {
      ParsedStep(lines, k, registry);
      ParseRaisesStep(lines, k);
      var kind := Classify(lines[k]);
      match kind {
        case Header(c) =>
          category := c;
        case Entry(name, url, desc) =>
          skills := skills + [SkillEntry(name, if desc == [] then name else desc, url, registry, category)];
        case Skipped =>
        case UrlError =>
          ParseRaisesPrefix(lines, k + 1);
          return Err(InvalidIpv6);
      }
    }
    assert lines[..|lines|] == lines;
    r := Ok(skills);
  }

  lemma ParsedStep(lines: seq<string>, k: nat, registry: string)
    requires k < |lines|
    ensures Parsed(lines[..k + 1], registry)
      == Parsed(lines[..k], registry) + EntryOf(Classify(lines[k]), registry, CategoryAfter(lines[..k]))
    ensures CategoryAfter(lines[..k + 1])
      == match Classify(lines[k]) case Header(c) => c case _ => CategoryAfter(lines[..k])
  {
    assert lines[..k + 1][..k] == lines[..k];
  }

  predicate IsHeaderLine(line: string) { Classify(line).Header? }
  predicate IsEntryLine(line: string) { Classify(line).Entry? }

  /** The category is that of the last header line so far. */
  lemma {:induction false} CategoryIsLastHeader(lines: seq<string>, j: nat)
    requires j < |lines| && IsHeaderLine(lines[j])
    requires forall k :: j < k < |lines| ==> !IsHeaderLine(lines[k])
    ensures CategoryAfter(lines) == Classify(lines[j]).category
    decreases |lines|
  {
    if j < |lines| - 1 {
      var init := lines[..|lines| - 1];
      assert init[j] == lines[j];
      CategoryIsLastHeader(init, j);
    }
  }

  /** Before any header line the category is empty. */
  lemma {:induction false} NoHeaderNoCategory(lines: seq<string>)
    requires forall k :: 0 <= k < |lines| ==> !IsHeaderLine(lines[k])
    ensures CategoryAfter(lines) == []
    decreases |lines|
  {
    if lines != [] {
      NoHeaderNoCategory(lines[..|lines| - 1]);
    }
  }

  /** One entry per entry line. */
  lemma {:induction false} ParsedCount(lines: seq<string>, registry: string)
    ensures |Parsed(lines, registry)| == CountIf(lines, IsEntryLine)
    decreases |lines|
  {
    if lines != [] {
      ParsedCount(lines[..|lines| - 1], registry);
      CountIfPrefixStep(lines, IsEntryLine, |lines| - 1);
      assert lines[..|lines|] == lines;
    }
  }

  /** Every parsed entry has a non-empty name, URL and description within their
      caps, the given registry and a category of at most 120 characters. */
  predicate WellFormedEntry(e: SkillEntry, registry: string)
  {
    e.name != [] && |e.name| <= 140 && e.url != [] && |e.url| <= 2048 && SanitizeUrl(Strip(e.url)) == Ok(e.url)
    && e.description != [] && |e.description| <= DescMax
    && e.sourceRegistry == registry && |e.category| <= 120
  }

  lemma {:induction false} CategoryAfterBound(lines: seq<string>)
    ensures |CategoryAfter(lines)| <= 120
    decreases |lines|
  {
    if lines != [] {
      ClassifyBounds(lines[|lines| - 1]);
      CategoryAfterBound(lines[..|lines| - 1]);
    }
  }

  lemma {:induction false} ParsedWellFormed(lines: seq<string>, registry: string)
    ensures forall i :: 0 <= i < |Parsed(lines, registry)| ==> WellFormedEntry(Parsed(lines, registry)[i], registry)
    decreases |lines|
  {
    if lines != [] {
      var init := lines[..|lines| - 1];
      ParsedWellFormed(init, registry);
      ClassifyBounds(lines[|lines| - 1]);
      CategoryAfterBound(init);
    }
  }

  /** A header line `## title` yields exactly its title. */
  lemma HeaderLineMatches(title: string)
    requires title != [] && !IsSpace(title[0])
    ensures HeaderGroup("## " + title) == Some(title)
  {
    var line := "## " + title;
    assert line[2..] == [' '] + title;
    assert LeadingSpaces(line[2..]) == 1 by {
      assert line[2..][1..] == title;
      assert LeadingSpaces(title) == 0;
    }
    assert line[2..][1..] == title;
  }

  // ---------------------------------------------------------------------
  // enrich_entry

  const UnknownName := "unknown-skill"
  const UnknownUrl := "https://" + "example.invalid/" + "unknown"
  const SummaryLongMax := 420

  /** The dictionary `dict(entry)` copies: "category" is present only when set. */
  function EntryMap(e: SkillEntry): (m: map<string, Json>)
  {
    var base := map["name" := JStr(e.name), "description" := JStr(e.description), "url" := JStr(e.url),
                    "source_registry" := JStr(e.sourceRegistry)];
    if e.category != [] then base["category" := JStr(e.category)] else base
  }

  function StrList(xs: seq<string>): (r: Json)
    ensures r.JList? && |r.items| == |xs|
  {
    JList(seq(|xs|, i requires 0 <= i < |xs| => JStr(xs[i])))
  }

  function NonEmpty(x: string): bool { x != [] }

  function UrlOrEmpty(r: Result<string>): string
  {
    match r
    case Ok(u) => u
    case Err(_) => []
  }

  /** The fields of an entry after `enrich_entry` sanitises them and applies
      the fallbacks. */
  datatype Fields = Fields(name: string, desc: string, url: string, category: string, source: string)

  /** A URL `sanitize_url` would raise on counts as empty here; no entry
      has one, since each entry's URL was already accepted by `sanitize_url`
      (ResanitizedUrl, ParsedWellFormed). */
  function CleanFields(e: SkillEntry): (f: Fields)
    ensures f.name != [] && f.url != []
    ensures SanitizeUrl(Strip(e.url)) == Ok(e.url) && e.url != [] ==> f.url == e.url
  {
    var name := SanitizedText(Strip(e.name), 140);
    var url := UrlOrEmpty(SanitizeUrl(Strip(e.url)));
    Fields(if name == [] then UnknownName else name, SanitizedText(Strip(e.description), DescMax),
           if url == [] then UnknownUrl else url, SanitizedText(Strip(e.category), 120),
           SanitizedText(Strip(e.sourceRegistry), 160))
  }

  /** `summary_short`: the first sentence of the description, else the name. */
  function ShortSummary(f: Fields): string
  {
    var s := FirstSentence(f.desc);
    if s == [] then f.name else s
  }

  /** The text the capability and requirement hints are looked for in. */
  function CapabilityText(f: Fields): string
  {
    Join(Filter([f.name, f.desc, f.category], NonEmpty), " ")
  }

  /** The parts of `summary_long` before joining. */
  function LongSummaryParts(short: string, caps: seq<string>, reqs: seq<string>, risks: seq<string>): (r: seq<string>)
    ensures r != [] && r[0] == short
  {
    [short]
    + (if caps != [] then ["Primary capabilities: " + Join(caps, ", ") + "."] else [])
    + (if reqs != [] then ["Likely requirements: " + Join(reqs, ", ") + "."] else [])
    + (if "external_network" in risks then ["May require " + "network access."] else [])
  }

  function QualitySignals(f: Fields): Json
  {
    JObj(map["has_description" := JBool(f.desc != []), "description_length" := JInt(|f.desc|),
             "has_category" := JBool(f.category != []), "source_registry" := JStr(f.source),
             "url_domain_hint" := JStr(if Contains(Lower(f.url), "github.com") then "github" else "other")])
  }

  /** The six values `enrich_entry` derives. */
  datatype Derived = Derived(short: string, long: string, caps: seq<string>, reqs: seq<string>, risks: seq<string>,
                             quality: Json)

  /** `summary_long`: the joined parts cut to 420 characters. */
  function LongSummary(short: string, caps: seq<string>, reqs: seq<string>, risks: seq<string>): (r: string)
    ensures |r| <= SummaryLongMax
  {
    Take(Join(LongSummaryParts(short, caps, reqs, risks), " "), SummaryLongMax)
  }

  /** `summary_long` begins with `summary_short` whenever that fits. */
  lemma LongSummaryStarts(short: string, caps: seq<string>, reqs: seq<string>, risks: seq<string>)
    requires |short| <= SummaryLongMax
    ensures StartsWith(LongSummary(short, caps, reqs, risks), short)
  {
    var parts := LongSummaryParts(short, caps, reqs, risks);
    JoinStartsWith(parts, " ");
    var whole := Join(parts, " ");
    assert Take(whole, SummaryLongMax)[..|short|] == whole[..|short|];
  }

  /** The derived values for the cleaned fields. */
  function DerivedFrom(f: Fields): Derived
  {
    var short := ShortSummary(f);
    var text := CapabilityText(f);
    var caps := Inferred(CapabilityKeywords, Lower(text));
    var reqs := Inferred(RequirementHints, Lower(text));
    var risks := Inferred(RiskHints, Lower(Join([text, f.url], " ")));
    Derived(short, LongSummary(short, caps, reqs, risks), caps, reqs, risks, QualitySignals(f))
  }

  function DerivedOf(e: SkillEntry): Derived
  {
    DerivedFrom(CleanFields(e))
  }

  /** The copy of the entry with the six derived keys set. */
  function WithDerived(m: map<string, Json>, d: Derived): map<string, Json>
  {
    m["summary_short" := JStr(d.short)]["summary_long" := JStr(d.long)]["capabilities" := StrList(d.caps)]
      ["requirements" := StrList(d.reqs)]["risk_flags" := StrList(d.risks)]["quality_signals" := d.quality]
  }

  /** What `enrich_entry` returns. */
  function Enriched(e: SkillEntry): map<string, Json>
  {
    WithDerived(EntryMap(e), DerivedOf(e))
  }

  /** The sanitising and fallbacks of `enrich_entry`. */
  method Clean(e: SkillEntry) returns (f: Fields)
    ensures f == CleanFields(e)
  {
    var name := SanitizeText(Strip(e.name), 140);
    var desc := SanitizeText(Strip(e.description), DescMax);
    var url := UrlOrEmpty(SanitizeUrl(Strip(e.url)));
    var category := SanitizeText(Strip(e.category), 120);
    var source := SanitizeText(Strip(e.sourceRegistry), 160);
    if name == [] {
      name := UnknownName;
    }
    if url == [] {
      url := UnknownUrl;
    }
    f := Fields(name, desc, url, category, source);
  }

  /** The computations of `enrich_entry` on the cleaned fields. */
  method Derive(f: Fields) returns (d: Derived)
    ensures d == DerivedFrom(f)
  {
    var short := FirstSentence(f.desc);
    if short == [] {
      short := f.name;
    }
    var text := CapabilityText(f);
    var caps := InferCapabilities(text);
    var reqs := InferRequirements(text);
    var risks := InferRisks(Join([text, f.url], " "));
    d := Derived(short, LongSummary(short, caps, reqs, risks), caps, reqs, risks, QualitySignals(f));
  }

  /** `enrich_entry`. */
  method EnrichEntry(e: SkillEntry) returns (out: map<string, Json>)
    ensures out == Enriched(e)
  {
    var f := Clean(e);
    var d := Derive(f);
    out := EntryMap(e);
    out := out["summary_short" := JStr(d.short)];
    out := out["summary_long" := JStr(d.long)];
    out := out["capabilities" := StrList(d.caps)];
    out := out["requirements" := StrList(d.reqs)];
    out := out["risk_flags" := StrList(d.risks)];
    out := out["quality_signals" := d.quality];
  }

  /** The six keys `enrich_entry` adds. */
  predicate IsDerivedKey(k: string)
  {
    k == "summary_short" || k == "summary_long" || k == "capabilities" || k == "requirements" || k == "risk_flags"
    || k == "quality_signals"
  }

  /** Setting the derived keys adds exactly those keys and leaves every other
      key with its value. */
  lemma WithDerivedKeys(m: map<string, Json>, d: Derived)
    ensures forall k :: k in WithDerived(m, d) <==> k in m || IsDerivedKey(k)
    ensures forall k :: k in m && !IsDerivedKey(k) ==> WithDerived(m, d)[k] == m[k]
  {
  }

  /** None of the entry's own keys is a derived key. */
  lemma EntryKeysNotDerived(e: SkillEntry)
    ensures forall k :: k in EntryMap(e) ==> !IsDerivedKey(k)
  {
    forall k | k in EntryMap(e) ensures !IsDerivedKey(k) {
      assert k == "name" || k == "description" || k == "url" || k == "source_registry" || k == "category";
    }
  }

  /** The enriched entry keeps every key of the entry with its value, even
      where the fallbacks replaced an empty name or URL, and adds exactly the
      six derived keys. */
  lemma EnrichedKeys(e: SkillEntry)
    ensures forall k :: k in Enriched(e) <==> k in EntryMap(e) || IsDerivedKey(k)
    ensures forall k :: k in EntryMap(e) ==> Enriched(e)[k] == EntryMap(e)[k]
  {
    WithDerivedKeys(EntryMap(e), DerivedOf(e));
    EntryKeysNotDerived(e);
  }

  /** A join begins with its first part. */
  lemma JoinStartsWith(parts: seq<string>, sep: string)
    requires parts != []
    ensures StartsWith(Join(parts, sep), parts[0])
  {
    if |parts| > 1 {
      assert Join(parts, sep) == parts[0] + (sep + Join(parts[1..], sep));
    }
  }

  /** `summary_short` is non-empty and at most 220 characters; `summary_long`
      is at most 420 characters and begins with it. */
  lemma DerivedSummaries(e: SkillEntry)
    ensures var d := DerivedOf(e);
      d.short != [] && |d.short| <= SummaryShortMax && |d.long| <= SummaryLongMax && StartsWith(d.long, d.short)
  {
    var f := CleanFields(e);
    SanitizedTextLength(Strip(e.name), 140);
    var d := DerivedFrom(f);
    assert |d.short| <= SummaryShortMax;
    LongSummaryStarts(d.short, d.caps, d.reqs, d.risks);
  }

  /** An entry whose name sanitises to nothing is summarised as
      "unknown-skill" when its description has no sentence either. */
  lemma UnknownNameSummary(e: SkillEntry)
    requires SanitizedText(Strip(e.name), 140) == [] && SanitizedText(Strip(e.description), DescMax) == []
    ensures DerivedOf(e).short == UnknownName
  {
    CollapseEmpty([]);
  }

  /** The URL hint is "github" exactly when the sanitised URL mentions
      github.com, ignoring ASCII case. */
  lemma UrlDomainHint(e: SkillEntry)
    ensures DerivedOf(e).quality.JObj? && "url_domain_hint" in DerivedOf(e).quality.fields
    ensures DerivedOf(e).quality.fields["url_domain_hint"] == JStr("github")
      <==> Contains(Lower(CleanFields(e).url), "github.com")
  {
    assert "github" != "other";
  }

  // ---------------------------------------------------------------------
  // main: sources and the URL deduplication of skills

  const GitHub := "https://" + "github.com/"
  const RegistryAwesome := GitHub + "VoltAgent/" + "awesome-openclaw-skills"
  const RegistryAnthropics := GitHub + "anthropics/" + "skills/tree/main/skills"
  const InitialSources := [RegistryAwesome, RegistryAnthropics]

  /** A registry line that is neither blank nor a comment and whose URL makes
      `urlparse` raise; `main` does not catch that. */
  predicate RegistryLineRaises(line: string)
  {
    var l := SanitizedText(Strip(line), 2048);
    l != [] && !StartsWith(l, "#") && SanitizeUrl(l).Err?
  }

  predicate RegistryRaises(lines: seq<string>)
  {
    lines != [] && (RegistryRaises(lines[..|lines| - 1]) || RegistryLineRaises(lines[|lines| - 1]))
  }

  lemma RegistryRaisesStep(lines: seq<string>, k: nat)
    requires k < |lines|
    ensures RegistryRaises(lines[..k + 1]) <==> RegistryRaises(lines[..k]) || RegistryLineRaises(lines[k])
  {
    assert lines[..k + 1][..k] == lines[..k];
  }

  /** One registry line that raises ends `main`, whatever follows it. */
  lemma {:induction false} RegistryRaisesPrefix(lines: seq<string>, n: nat)
    requires n <= |lines| && RegistryRaises(lines[..n])
    ensures RegistryRaises(lines)
    decreases |lines| - n
  {
    if n == |lines| {
      assert lines[..n] == lines;
    } else {
      RegistryRaisesStep(lines, n);
      RegistryRaisesPrefix(lines, n + 1);
    }
  }

  /** The URL one line of the registry file contributes, if any. */
  function RegistryUrl(line: string): (r: Option<string>)
    ensures r.Some? ==> SanitizeUrl(SanitizedText(Strip(line), 2048)) == Ok(r.value) && r.value != []
  {
    var l := SanitizedText(Strip(line), 2048);
    if l == [] || StartsWith(l, "#") then None
    else
      match SanitizeUrl(l)
      case Err(_) => None
      case Ok(u) => if u == [] then None else Some(u)
  }

  /** The registry URLs in file order. */
  function RegistryUrls(lines: seq<string>): seq<string>
  {
    if lines == [] then []
    else
      RegistryUrls(lines[..|lines| - 1]) + AsSeq(RegistryUrl(lines[|lines| - 1]))
  }

  function AsSeq(o: Option<string>): (r: seq<string>)
    ensures |r| <= 1 && (o.Some? ==> r == [o.value]) && (o.None? ==> r == [])
  {
    match o
    case None => []
    case Some(u) => [u]
  }

  lemma RegistryUrlsStep(lines: seq<string>, k: nat)
    requires k < |lines|
    ensures RegistryUrls(lines[..k + 1]) == RegistryUrls(lines[..k]) + AsSeq(RegistryUrl(lines[k]))
  {
    assert lines[..k + 1][..k] == lines[..k];
  }

  /** The registry URLs appended to `initial`, or the ValueError of the first
      line that raises. */
  function Added(initial: seq<string>, lines: seq<string>): (r: Result<seq<string>>)
    ensures r.Err? <==> RegistryRaises(lines)
  {
    if RegistryRaises(lines) then Err(InvalidIpv6) else Ok(AddAll(initial, RegistryUrls(lines)))
  }

  /** The `sources` list, or the exception that ends `main` while it is built. */
  function Sources(registry: Option<string>): (r: Result<seq<string>>)
    ensures r.Err? <==> registry.Some? && RegistryRaises(Lines(registry.value))
  {
    match registry
    case None => Ok(InitialSources)
    case Some(text) => Added(InitialSources, Lines(text))
  }

  /** The registry line handling of `main`. */
  method RegistryLineUrl(line: string) returns (r: Result<Option<string>>)
    ensures r.Err? <==> RegistryLineRaises(line)
    ensures r.Ok? ==> r.value == RegistryUrl(line)
  {
    var l := SanitizeText(Strip(line), 2048);
    r := Ok(None);
    if l != [] && !StartsWith(l, "#") {
      var safe := SanitizeUrl(l);
      if safe.Err? {
        r := Err(safe.error);
      } else if safe.value != [] {
        r := Ok(Some(safe.value));
      }
    }
  }

  /** The registry loop of `main`, appending each new URL to `initial`. */
  method AddRegistryUrls(initial: seq<string>, lines: seq<string>) returns (sources: Result<seq<string>>)
    ensures sources == Added(initial, lines)
  {
    var acc := initial;
    for k := 0 to |lines|
      invariant acc == AddAll(initial, RegistryUrls(lines[..k]))
      invariant !RegistryRaises(lines[..k])
    {
      var r := RegistryLineUrl(lines[k]);
      RegistryRaisesStep(lines, k);
      if r.Err? {
        RegistryRaisesPrefix(lines, k + 1);
        return Err(InvalidIpv6);
      }
      RegistryUrlsStep(lines, k);
      AddAllStep(initial, RegistryUrls(lines[..k]), AsSeq(r.value), RegistryUrls(lines[..k + 1]), acc);
      if r.value.Some? && r.value.value !in acc {
        acc := acc + [r.value.value];
      }
    }
    assert lines[..|lines|] == lines;
    sources := Ok(acc);
  }

  method CollectSources(registry: Option<string>) returns (sources: Result<seq<string>>)
    ensures sources == Sources(registry)
  {
    sources := Ok(InitialSources);
    if registry.Some? {
      sources := AddRegistryUrls(InitialSources, Lines(registry.value));
    }
  }

  lemma InitialSourcesDistinct()
    ensures NoDup(InitialSources)
  {
    assert RegistryAwesome[|GitHub|] == 'V' && RegistryAnthropics[|GitHub|] == 'a';
  }

  lemma {:induction false} AddAllKeepsPrefix<T>(acc: seq<T>, xs: seq<T>)
    ensures |AddAll(acc, xs)| >= |acc| && AddAll(acc, xs)[..|acc|] == acc
    decreases |xs|
  {
    if xs != [] {
      AddAllKeepsPrefix(acc, xs[..|xs| - 1]);
    }
  }

  /** Adding to a repetition-free list keeps its start, stays free of
      repetitions and is de-duplication of the concatenation. */
  lemma AddAllDedup(initial: seq<string>, urls: seq<string>)
    requires NoDup(initial)
    ensures |AddAll(initial, urls)| >= |initial| && AddAll(initial, urls)[..|initial|] == initial
    ensures NoDup(AddAll(initial, urls)) && AddAll(initial, urls) == Dedup(initial + urls)
  {
    AddAllIsDedup(initial, urls);
    AddAllKeepsPrefix(initial, urls);
  }

  /** The sources are the two built-in registries followed by the registry
      file's URLs, each kept at its first occurrence. */
  lemma SourcesDedup(registry: Option<string>)
    ensures var r := Sources(registry);
      r.Ok? ==> |r.value| >= 2 && r.value[..2] == InitialSources && NoDup(r.value)
    ensures var r := Sources(registry);
      r.Ok? && registry.Some? ==> r.value == Dedup(InitialSources + RegistryUrls(Lines(registry.value)))
  {
    InitialSourcesDistinct();
    if registry.Some? {
      AddAllDedup(InitialSources, RegistryUrls(Lines(registry.value)));
    }
  }

  /** Some entry of `xs` has URL `u`. */
  predicate UrlIn(u: string, xs: seq<SkillEntry>)
  {
    exists i :: 0 <= i < |xs| && xs[i].url == u
  }

  lemma UrlInAppend(u: string, a: seq<SkillEntry>, b: seq<SkillEntry>)
    ensures UrlIn(u, a + b) <==> UrlIn(u, a) || UrlIn(u, b)
  {
    if UrlIn(u, a + b) {
      var i :| 0 <= i < |a + b| && (a + b)[i].url == u;
      if i >= |a| {
        assert b[i - |a|] == (a + b)[i];
      }
    }
    if UrlIn(u, a) {
      var i :| 0 <= i < |a| && a[i].url == u;
      assert (a + b)[i] == a[i];
    }
    if UrlIn(u, b) {
      var i :| 0 <= i < |b| && b[i].url == u;
      assert (a + b)[|a| + i] == b[i];
    }
  }

  /** The entries of `xs` whose URL is neither in `seen` nor on an earlier entry. */
  function NewByUrl(seen: set<string>, xs: seq<SkillEntry>): seq<SkillEntry>
  {
    if xs == [] then []
    else
      var init, x := xs[..|xs| - 1], xs[|xs| - 1];
      NewByUrl(seen, init) + if x.url in seen || UrlIn(x.url, init) then [] else [x]
  }

  /** One `for s in ...: if s["url"] not in seen_urls` loop of `main`. */
  method AddUnseen(seen0: set<string>, xs: seq<SkillEntry>) returns (kept: seq<SkillEntry>, seen: set<string>)
    ensures kept == NewByUrl(seen0, xs)
    ensures forall u :: u in seen <==> u in seen0 || UrlIn(u, xs)
  {
    kept := [];
    seen := seen0;
    for k := 0 to |xs|
      invariant kept == NewByUrl(seen0, xs[..k])
      invariant forall u :: u in seen <==> u in seen0 || UrlIn(u, xs[..k])
    {
      NewByUrlStep(seen0, xs, k);
      if xs[k].url !in seen {
        seen := seen + {xs[k].url};
        kept := kept + [xs[k]];
      }
    }
    assert xs[..|xs|] == xs;
  }

  lemma NewByUrlStep(seen: set<string>, xs: seq<SkillEntry>, k: nat)
    requires k < |xs|
    ensures NewByUrl(seen, xs[..k + 1])
      == NewByUrl(seen, xs[..k]) + if xs[k].url in seen || UrlIn(xs[k].url, xs[..k]) then [] else [xs[k]]
    ensures forall u :: UrlIn(u, xs[..k + 1]) <==> UrlIn(u, xs[..k]) || u == xs[k].url
  {
    assert xs[..k + 1] == xs[..k] + [xs[k]];
    assert xs[..k + 1][..k] == xs[..k];
    forall u ensures UrlIn(u, xs[..k + 1]) <==> UrlIn(u, xs[..k]) || u == xs[k].url {
      UrlInAppend(u, xs[..k], [xs[k]]);
      assert UrlIn(u, [xs[k]]) <==> u == xs[k].url by {
        assert [xs[k]][0] == xs[k];
      }
    }
  }

  /** Kept entries have distinct URLs outside `seen`, each offered by `xs`. */
  lemma {:induction false} NewByUrlDistinct(seen: set<string>, xs: seq<SkillEntry>)
    ensures forall i :: 0 <= i < |NewByUrl(seen, xs)| ==> NewByUrl(seen, xs)[i].url !in seen
    ensures forall i, j :: 0 <= i < j < |NewByUrl(seen, xs)| ==> NewByUrl(seen, xs)[i].url != NewByUrl(seen, xs)[j].url
    ensures forall i :: 0 <= i < |NewByUrl(seen, xs)| ==> UrlIn(NewByUrl(seen, xs)[i].url, xs)
    decreases |xs|
  {
    if xs != [] {
      var init, x := xs[..|xs| - 1], xs[|xs| - 1];
      var prev := NewByUrl(seen, init);
      NewByUrlDistinct(seen, init);
      forall i | 0 <= i < |prev| ensures UrlIn(prev[i].url, xs) {
        var j :| 0 <= j < |init| && init[j].url == prev[i].url;
        assert xs[j] == init[j];
      }
      assert xs[|xs| - 1] == x;
    }
  }

  /** Every URL of `xs` outside `seen` is kept, by the first entry carrying it. */
  lemma {:induction false} NewByUrlFirstWins(seen: set<string>, xs: seq<SkillEntry>, i: nat)
    requires i < |xs| && xs[i].url !in seen && !UrlIn(xs[i].url, xs[..i])
    ensures xs[i] in NewByUrl(seen, xs)
    decreases |xs|
  {
    var init := xs[..|xs| - 1];
    if i < |xs| - 1 {
      assert init[..i] == xs[..i];
      NewByUrlFirstWins(seen, init, i);
    } else {
      assert init == xs[..i];
    }
  }

  /** Running the loop over `a` and then over `b` with the URLs seen so far. */
  lemma {:induction false} NewByUrlAppend(seen: set<string>, a: seq<SkillEntry>, b: seq<SkillEntry>, seen2: set<string>)
    requires forall u :: u in seen2 <==> u in seen || UrlIn(u, a)
    ensures NewByUrl(seen, a + b) == NewByUrl(seen, a) + NewByUrl(seen2, b)
    decreases |b|
  {
    if b == [] {
      assert a + b == a;
    } else {
      var init, y := b[..|b| - 1], b[|b| - 1];
      NewByUrlAppend(seen, a, init, seen2);
      assert (a + b)[..|a + b| - 1] == a + init;
      assert (a + b)[|a + b| - 1] == y;
      UrlInAppend(y.url, a, init);
      assert NewByUrl(seen, a + b) == NewByUrl(seen, a + init) + if y.url in seen || UrlIn(y.url, a + init) then [] else [y];
    }
  }

  /** The awesome-list entries, none when the fetch failed or the parse
      raised (both end in the same `except`). */
  function AwesomeEntries(awesome: Option<string>): seq<SkillEntry>
  {
    match awesome
    case None => []
    case Some(text) => UnlessRaised(ParseResult(Lines(text), RegistryAwesome))
  }

  function UnlessRaised(r: Result<seq<SkillEntry>>): seq<SkillEntry>
  {
    match r
    case Ok(es) => es
    case Err(_) => []
  }

  /** The skills of the index before enrichment: the awesome-list entries and
      then the Anthropic entries, first occurrence of each URL winning. A
      failed fetch contributes nothing. */
  function AllSkills(awesome: Option<string>, anthropic: Option<seq<SkillEntry>>): seq<SkillEntry>
  {
    NewByUrl({}, AwesomeEntries(awesome) + anthropic.GetOr([]))
  }

  /** `[enrich_entry(s) for s in skills]`. */
  function EnrichedList(skills: seq<SkillEntry>): (r: seq<Json>)
    ensures |r| == |skills|
  {
    if skills == [] then [] else EnrichedList(skills[..|skills| - 1]) + [JObj(Enriched(skills[|skills| - 1]))]
  }

  /** The index document `main` writes, given the registry file's text (if
      the file exists), the fetched awesome-list page and Anthropic entries
      (None when the fetch failed) and the formatted time. */
  function IndexDoc(registry: Option<string>, awesome: Option<string>, anthropic: Option<seq<SkillEntry>>,
                    updated: string): (r: Result<Json>)
    ensures r.Err? <==> Sources(registry).Err?
  {
    match Sources(registry)
    case Err(e) => Err(e)
    case Ok(sources) =>
      Ok(JObj(map["schema_version" := JInt(2), "sources" := StrList(sources), "updated" := JStr(updated),
                  "skills" := JList(EnrichedList(AllSkills(awesome, anthropic)))]))
  }

  /** The two dedup loops of `main`. */
  method DedupSkills(awesome: Option<string>, anthropic: Option<seq<SkillEntry>>) returns (all: seq<SkillEntry>)
    ensures all == AllSkills(awesome, anthropic)
  {
    var parsed: seq<SkillEntry> := [];
    if awesome.Some? {
      var p := ParseAwesomeList(awesome.value, RegistryAwesome);
      parsed := UnlessRaised(p);
    }
    var fromAwesome, seen := AddUnseen({}, parsed);
    var fromAnthropic, _ := AddUnseen(seen, anthropic.GetOr([]));
    NewByUrlAppend({}, parsed, anthropic.GetOr([]), seen);
    all := fromAwesome + fromAnthropic;
  }

  /** The skill collection of `main`: both dedup loops, then enrichment. */
  method CollectSkills(awesome: Option<string>, anthropic: Option<seq<SkillEntry>>) returns (enriched: seq<Json>)
    ensures enriched == EnrichedList(AllSkills(awesome, anthropic))
  {
    var all := DedupSkills(awesome, anthropic);
    enriched := EnrichedList(all);
  }

  /** `main` without its file system and network effects. */
  method BuildIndex(registry: Option<string>, awesome: Option<string>, anthropic: Option<seq<SkillEntry>>,
                    updated: string) returns (doc: Result<Json>)
    ensures doc == IndexDoc(registry, awesome, anthropic, updated)
  {
    var sources := CollectSources(registry);
    if sources.Err? {
      return Err(sources.error);
    }
    var enriched := CollectSkills(awesome, anthropic);
    doc := Ok(JObj(map["schema_version" := JInt(2), "sources" := StrList(sources.value), "updated" := JStr(updated),
                       "skills" := JList(enriched)]));
  }

  /** The skills of the index have distinct URLs; every URL offered by a
      source is among them, carried by the first entry that offered it. */
  lemma AllSkillsDedup(awesome: Option<string>, anthropic: Option<seq<SkillEntry>>)
    ensures var r := AllSkills(awesome, anthropic);
      forall i, j :: 0 <= i < j < |r| ==> r[i].url != r[j].url
    ensures var xs := AwesomeEntries(awesome) + anthropic.GetOr([]);
      forall i :: 0 <= i < |xs| && !UrlIn(xs[i].url, xs[..i]) ==> xs[i] in AllSkills(awesome, anthropic)
  {
    var xs := AwesomeEntries(awesome) + anthropic.GetOr([]);
    NewByUrlDistinct({}, xs);
    forall i | 0 <= i < |xs| && !UrlIn(xs[i].url, xs[..i]) ensures xs[i] in NewByUrl({}, xs) {
      NewByUrlFirstWins({}, xs, i);
    }
  }
}
