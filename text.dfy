// Python string semantics used throughout the scripts: `str.isspace`,
// `strip`, `split()` with and without a separator, `splitlines`, `find`,
// `replace`, `startswith`/`endswith`, ASCII `lower`, and integer rendering.
module Text {
  import opened Wrappers

  /** Python `str.isspace` for one character (the same class that `strip()`,
      `split()` and the regular-expression escape `\s` use). */
  predicate IsSpace(c: char)
  {
    var n := c as int;
    n == 0x20 || (0x09 <= n <= 0x0D) || (0x1C <= n <= 0x1F) || n == 0x85 || n == 0xA0
    || n == 0x1680 || (0x2000 <= n <= 0x200A) || n == 0x2028 || n == 0x2029
    || n == 0x202F || n == 0x205F || n == 0x3000
  }

  predicate NoSpace(s: string)
  {
    forall i :: 0 <= i < |s| ==> !IsSpace(s[i])
  }

  predicate AllSpace(s: string)
  {
    forall i :: 0 <= i < |s| ==> IsSpace(s[i])
  }

  /** The character class `[\x00-\x08\x0b\x0c\x0e-\x1f\x7f]`: controls other than
      tab, line feed and carriage return. */
  predicate IsControlChar(c: char)
  {
    var n := c as int;
    (0 <= n <= 0x08) || n == 0x0B || n == 0x0C || (0x0E <= n <= 0x1F) || n == 0x7F
  }

  predicate IsAsciiLetter(c: char) { ('a' <= c <= 'z') || ('A' <= c <= 'Z') }
  predicate IsAsciiDigit(c: char) { '0' <= c <= '9' }
  predicate IsAsciiAlnum(c: char) { IsAsciiLetter(c) || IsAsciiDigit(c) }

  // ---------------------------------------------------------------------
  // Prefixes, suffixes and occurrences

  predicate StartsWith(s: string, p: string) { |p| <= |s| && s[..|p|] == p }
  predicate EndsWith(s: string, p: string) { |p| <= |s| && s[|s| - |p|..] == p }

  /** `sub` occurs in `s` starting at index `j`. */
  predicate OccursAt(s: string, sub: string, j: int)
  {
    0 <= j && j + |sub| <= |s| && s[j..j + |sub|] == sub
  }

  /** First occurrence of `sub` in `s` at an index not below `i`. */
  function FindFrom(s: string, sub: string, i: nat): (r: Option<nat>)
    requires i <= |s|
    ensures r.Some? ==> i <= r.value && OccursAt(s, sub, r.value)
    ensures r.Some? ==> forall j :: i <= j < r.value ==> !OccursAt(s, sub, j)
    ensures r.None? ==> forall j :: i <= j ==> !OccursAt(s, sub, j)
    decreases |s| - i
  {
    if i + |sub| > |s| then None
    else if s[i..i + |sub|] == sub then Some(i)
    else FindFrom(s, sub, i + 1)
  }

  /** Python `s.find(sub)` (None standing for -1). */
  function IndexOf(s: string, sub: string): (r: Option<nat>)
    ensures r.Some? ==> OccursAt(s, sub, r.value)
    ensures r.Some? ==> forall j :: 0 <= j < r.value ==> !OccursAt(s, sub, j)
    ensures r.None? ==> forall j :: !OccursAt(s, sub, j)
  {
    FindFrom(s, sub, 0)
  }

  /** Python `sub in s`. */
  predicate Contains(s: string, sub: string)
  {
    IndexOf(s, sub).Some?
  }

  lemma ContainsIff(s: string, sub: string)
    ensures Contains(s, sub) <==> exists j :: OccursAt(s, sub, j)
  {
  }

  lemma {:induction false} ContainsSlice(s: string, sub: string, a: nat, b: nat)
    requires a <= b <= |s| && Contains(s[a..b], sub)
    ensures Contains(s, sub)
  {
    var k := IndexOf(s[a..b], sub).value;
    assert OccursAt(s[a..b], sub, k);
    assert k + |sub| <= b - a;
    forall i | 0 <= i < |sub| ensures s[a + k + i] == sub[i] {
      assert s[a..b][k..k + |sub|][i] == sub[i];
      assert s[a..b][k + i] == s[a + k + i];
    }
    assert s[a + k..a + k + |sub|] == sub;
    assert OccursAt(s, sub, a + k);
  }

  lemma {:induction false} ContainsConcat(a: string, b: string, sub: string)
    requires Contains(a, sub) || Contains(b, sub)
    ensures Contains(a + b, sub)
  {
    var ab := a + b;
    if Contains(a, sub) {
      assert ab[0..|a|] == a;
      ContainsSlice(ab, sub, 0, |a|);
    } else {
      assert ab[|a|..|ab|] == b;
      ContainsSlice(ab, sub, |a|, |ab|);
    }
  }

  /** Index of the last occurrence of character `c`, if any. */
  function LastIndexOfChar(s: string, c: char): (r: Option<nat>)
    ensures r.Some? ==> r.value < |s| && s[r.value] == c
    ensures r.Some? ==> forall j :: r.value < j < |s| ==> s[j] != c
    ensures r.None? ==> c !in s
    decreases |s|
  {
    if s == [] then None
    else if s[|s| - 1] == c then Some(|s| - 1)
    else LastIndexOfChar(s[..|s| - 1], c)
  }

  /** Index of the first occurrence of character `c`, if any. */
  function IndexOfChar(s: string, c: char): (r: Option<nat>)
    ensures r.Some? ==> r.value < |s| && s[r.value] == c && c !in s[..r.value]
    ensures r.None? ==> c !in s
    decreases |s|
  {
    if s == [] then None
    else if s[0] == c then Some(0)
    else match IndexOfChar(s[1..], c)
      case None => None
      case Some(k) =>
        assert s[..k + 1] == [s[0]] + s[1..][..k];
        Some(k + 1)
  }

  // ---------------------------------------------------------------------
  // strip

  /** Python `s.lstrip()`. */
  function LStrip(s: string): (r: string)
    ensures |r| <= |s| && r == s[|s| - |r|..]
    ensures AllSpace(s[..|s| - |r|])
    ensures r != [] ==> !IsSpace(r[0])
    decreases |s|
  {
    if s != [] && IsSpace(s[0]) then
      var t := s[1..];
      var r := LStrip(t);
      assert s[..|s| - |r|] == [s[0]] + t[..|t| - |r|];
      assert r == s[|s| - |r|..] by {
        assert t[|t| - |r|..] == s[|s| - |r|..];
      }
      r
    else s
  }

  /** Python `s.rstrip()`. */
  function RStrip(s: string): (r: string)
    ensures |r| <= |s| && r == s[..|r|]
    ensures AllSpace(s[|r|..])
    ensures r != [] ==> !IsSpace(r[|r| - 1])
    decreases |s|
  {
    if s != [] && IsSpace(s[|s| - 1]) then
      var t := s[..|s| - 1];
      var r := RStrip(t);
      assert s[|r|..] == t[|r|..] + [s[|s| - 1]];
      assert r == s[..|r|] by {
        assert t[..|r|] == s[..|r|];
      }
      r
    else s
  }

  /** Python `s.strip()`: whitespace removed from both ends. */
  function Strip(s: string): (r: string)
    ensures |r| <= |s|
    ensures r != [] ==> !IsSpace(r[0]) && !IsSpace(r[|r| - 1])
    decreases |s|
  {
    if s == [] then []
    else if IsSpace(s[0]) then Strip(s[1..])
    else if IsSpace(s[|s| - 1]) then Strip(s[..|s| - 1])
    else s
  }

  /** Number of leading whitespace characters that `strip` removes. */
  function StripOffset(s: string): (a: nat)
    ensures a + |Strip(s)| <= |s|
    decreases |s|
  {
    if s == [] then 0
    else if IsSpace(s[0]) then 1 + StripOffset(s[1..])
    else if IsSpace(s[|s| - 1]) then StripOffset(s[..|s| - 1])
    else 0
  }

  /** Every character of `Strip(s)` is a character of `s`, in place. */
  lemma {:induction false} StripCharsFrom(s: string)
    ensures forall i :: 0 <= i < |Strip(s)| ==> Strip(s)[i] == s[StripOffset(s) + i]
    decreases |s|
  {
    if s != [] && IsSpace(s[0]) {
      var t := s[1..];
      StripCharsFrom(t);
      assert forall i :: 0 <= i < |t| ==> t[i] == s[1 + i];
    } else if s != [] && IsSpace(s[|s| - 1]) {
      var t := s[..|s| - 1];
      StripCharsFrom(t);
      assert forall i :: 0 <= i < |t| ==> t[i] == s[i];
    }
  }

  /** A character absent from `s` is absent from `Strip(s)`. */
  lemma StripKeepsAbsent(s: string, c: char)
    requires c !in s
    ensures c !in Strip(s)
  {
    StripCharsFrom(s);
    var t := Strip(s);
    var k := StripOffset(s);
    forall i | 0 <= i < |t| ensures t[i] != c {
      assert t[i] == s[k + i];
    }
  }

  /** A property of every character of `s` holds of every character of `Strip(s)`. */
  lemma StripKeepsAll(s: string, p: char -> bool)
    requires forall i :: 0 <= i < |s| ==> p(s[i])
    ensures forall i :: 0 <= i < |Strip(s)| ==> p(Strip(s)[i])
  {
    var t, a := Strip(s), StripOffset(s);
    forall i | 0 <= i < |t| ensures p(t[i]) {
      assert t[i] == s[a + i] by {
        StripCharsFrom(s);
      }
    }
  }

  /** A non-whitespace character of `s` survives `Strip`. */
  lemma {:induction false} StripKeepsNonSpace(s: string, c: char)
    requires c in s && !IsSpace(c)
    ensures c in Strip(s)
    decreases |s|
  {
    var k :| 0 <= k < |s| && s[k] == c;
    if IsSpace(s[0]) {
      var t := s[1..];
      assert t[k - 1] == c;
      StripKeepsNonSpace(t, c);
    } else if IsSpace(s[|s| - 1]) {
      var t := s[..|s| - 1];
      assert t[k] == c;
      StripKeepsNonSpace(t, c);
    }
  }

  /** What strip removes in front is whitespace. */
  lemma {:induction false} StripFrontSpaces(s: string)
    ensures forall i :: 0 <= i < StripOffset(s) ==> IsSpace(s[i])
    decreases |s|
  {
    if s != [] && IsSpace(s[0]) {
      var t := s[1..];
      StripFrontSpaces(t);
      assert forall i :: 1 <= i < 1 + StripOffset(t) ==> s[i] == t[i - 1];
    } else {
      StripOffsetNoLead(s);
    }
  }

  /** Nothing is cut in front of a string that does not start with whitespace. */
  lemma {:induction false} StripOffsetNoLead(s: string)
    requires s == [] || !IsSpace(s[0])
    ensures StripOffset(s) == 0
    decreases |s|
  {
    if s != [] && IsSpace(s[|s| - 1]) {
      var t := s[..|s| - 1];
      assert t[0] == s[0];
      StripOffsetNoLead(t);
    }
  }

  /** What strip removes at the back is whitespace. */
  lemma {:induction false} StripBackSpaces(s: string)
    ensures forall i :: StripOffset(s) + |Strip(s)| <= i < |s| ==> IsSpace(s[i])
    decreases |s|
  {
    if s != [] && IsSpace(s[0]) {
      var t := s[1..];
      StripBackSpaces(t);
      assert forall i :: 1 + StripOffset(t) + |Strip(t)| <= i < |s| ==> s[i] == t[i - 1];
    } else if s != [] && IsSpace(s[|s| - 1]) {
      var t := s[..|s| - 1];
      StripBackSpaces(t);
      assert forall i :: StripOffset(t) + |Strip(t)| <= i < |t| ==> s[i] == t[i];
    }
  }

  /** Strip returns the slice of `s` between its outer whitespace runs. */
  lemma StripSlice(s: string)
    ensures Strip(s) == s[StripOffset(s)..StripOffset(s) + |Strip(s)|]
    ensures AllSpace(s[..StripOffset(s)]) && AllSpace(s[StripOffset(s) + |Strip(s)|..])
  {
    StripCharsFrom(s);
    StripFrontSpaces(s);
    StripBackSpaces(s);
    var a, r := StripOffset(s), Strip(s);
    assert forall i :: 0 <= i < a ==> s[..a][i] == s[i];
    assert forall i :: a + |r| <= i < |s| ==> s[a + |r|..][i - (a + |r|)] == s[i];
  }

  /** Strip yields nothing exactly for an all-whitespace string. */
  lemma StripEmpty(s: string)
    ensures Strip(s) == [] <==> AllSpace(s)
  {
    StripCharsFrom(s);
    StripFrontSpaces(s);
    StripBackSpaces(s);
  }

  lemma StripNoEdgeSpace(s: string)
    requires s == [] || (!IsSpace(s[0]) && !IsSpace(s[|s| - 1]))
    ensures Strip(s) == s
  {
  }

  lemma StripIdempotent(s: string)
    ensures Strip(Strip(s)) == Strip(s)
  {
    StripNoEdgeSpace(Strip(s));
  }

  /** Python `s.lstrip(chars)` / `s.rstrip(chars)` / `s.strip(chars)` for an explicit set. */
  function LStripChars(s: string, cs: set<char>): (r: string)
    ensures |r| <= |s| && r == s[|s| - |r|..]
    ensures r != [] ==> r[0] !in cs
    decreases |s|
  {
    if s != [] && s[0] in cs then LStripChars(s[1..], cs) else s
  }

  function RStripChars(s: string, cs: set<char>): (r: string)
    ensures |r| <= |s| && r == s[..|r|]
    ensures r != [] ==> r[|r| - 1] !in cs
    decreases |s|
  {
    if s != [] && s[|s| - 1] in cs then RStripChars(s[..|s| - 1], cs) else s
  }

  function StripChars(s: string, cs: set<char>): (r: string)
    ensures |r| <= |s|
    ensures r != [] ==> r[0] !in cs && r[|r| - 1] !in cs
  {
    RStripChars(LStripChars(s, cs), cs)
  }

  // ---------------------------------------------------------------------
  // split() on whitespace runs, and " ".join(s.split())

  /** Length of the leading run of non-whitespace characters. */
  function WordLen(s: string): (n: nat)
    ensures n <= |s| && NoSpace(s[..n])
    ensures n < |s| ==> IsSpace(s[n])
    decreases |s|
  {
    if s == [] || IsSpace(s[0]) then 0 else 1 + WordLen(s[1..])
  }

  predicate IsWord(w: string) { w != [] && NoSpace(w) }

  /** Python `s.split()`: the maximal runs of non-whitespace characters. */
  function Words(s: string): (r: seq<string>)
    ensures forall k :: 0 <= k < |r| ==> IsWord(r[k])
    decreases |s|
  {
    if s == [] then []
    else if IsSpace(s[0]) then Words(s[1..])
    else
      var n := WordLen(s);
      [s[..n]] + Words(s[n..])
  }

  /** Python `sep.join(parts)`. */
  function Join(parts: seq<string>, sep: string): string
  {
    if parts == [] then []
    else if |parts| == 1 then parts[0]
    else parts[0] + sep + Join(parts[1..], sep)
  }

  /** `" ".join(s.split())`: whitespace runs collapsed to one space, ends trimmed. */
  function Collapse(s: string): string
  {
    Join(Words(s), " ")
  }

  /** A string in collapsed form: its only whitespace characters are single
      spaces with a non-whitespace character on each side. */
  predicate Collapsed(t: string)
  {
    forall i :: 0 <= i < |t| && IsSpace(t[i]) ==>
      t[i] == ' ' && 0 < i < |t| - 1 && !IsSpace(t[i - 1]) && !IsSpace(t[i + 1])
  }

  lemma {:induction false} JoinWordsCollapsed(ws: seq<string>)
    requires forall k :: 0 <= k < |ws| ==> IsWord(ws[k])
    ensures Collapsed(Join(ws, " "))
    ensures ws != [] ==> Join(ws, " ") != [] && !IsSpace(Join(ws, " ")[0])
    ensures ws != [] ==> !IsSpace(Join(ws, " ")[|Join(ws, " ")| - 1])
    decreases |ws|
  {
    if |ws| > 1 {
      JoinWordsCollapsed(ws[1..]);
      var w, rest := ws[0], Join(ws[1..], " ");
      var t := w + " " + rest;
      assert Join(ws, " ") == t;
      forall i | 0 <= i < |t| && IsSpace(t[i])
        ensures t[i] == ' ' && 0 < i < |t| - 1 && !IsSpace(t[i - 1]) && !IsSpace(t[i + 1])
      {
        if i > |w| {
          assert t[i] == rest[i - |w| - 1];
          assert t[i + 1] == rest[i - |w|];
          if i - 1 > |w| {
            assert t[i - 1] == rest[i - |w| - 2];
          }
        }
      }
    }
  }

  /** A leading run of `n` non-whitespace characters ended by whitespace or
      by the end of `s` is the first word. */
  lemma {:induction false} WordsFirst(s: string, n: nat)
    requires 0 < n <= |s| && NoSpace(s[..n]) && (n < |s| ==> IsSpace(s[n]))
    ensures Words(s) != [] && Words(s)[0] == s[..n]
  {
    WordLenIs(s, n);
  }

  lemma {:induction false} WordLenIs(s: string, n: nat)
    requires n <= |s| && NoSpace(s[..n]) && (n < |s| ==> IsSpace(s[n]))
    ensures WordLen(s) == n
    decreases n
  {
    if n > 0 {
      assert s[0] == s[..n][0];
      assert s[1..][..n - 1] == s[..n][1..];
      WordLenIs(s[1..], n - 1);
    }
  }

  /** The characters of a collapsed string are spaces or characters of the input. */
  lemma {:induction false} WordsChars(s: string, k: nat, i: nat)
    requires k < |Words(s)| && i < |Words(s)[k]|
    ensures Words(s)[k][i] in s
    decreases |s|
  {
    if s != [] {
      if IsSpace(s[0]) {
        WordsChars(s[1..], k, i);
      } else {
        var n := WordLen(s);
        if k > 0 {
          assert Words(s)[k] == Words(s[n..])[k - 1];
          WordsChars(s[n..], k - 1, i);
        }
      }
    }
  }

  lemma {:induction false} JoinChars(ws: seq<string>, sep: string, i: nat)
    requires i < |Join(ws, sep)|
    ensures Join(ws, sep)[i] in sep || exists k, j :: 0 <= k < |ws| && 0 <= j < |ws[k]| && ws[k][j] == Join(ws, sep)[i]
    decreases |ws|
  {
    if |ws| == 1 {
      assert ws[0][i] == Join(ws, sep)[i];
    } else if |ws| > 1 {
      var t := ws[0] + sep + Join(ws[1..], sep);
      if i < |ws[0]| {
        assert t[i] == ws[0][i];
      } else if i < |ws[0]| + |sep| {
        assert t[i] == sep[i - |ws[0]|];
      } else {
        JoinChars(ws[1..], sep, i - |ws[0]| - |sep|);
        if Join(ws[1..], sep)[i - |ws[0]| - |sep|] !in sep {
          var k, j :| 0 <= k < |ws[1..]| && 0 <= j < |ws[1..][k]| && ws[1..][k][j] == Join(ws[1..], sep)[i - |ws[0]| - |sep|];
          assert ws[k + 1][j] == t[i];
        }
      }
    }
  }

  lemma CollapseProperties(s: string)
    ensures Collapsed(Collapse(s))
    ensures Collapse(s) != [] ==> !IsSpace(Collapse(s)[0]) && !IsSpace(Collapse(s)[|Collapse(s)| - 1])
    ensures forall i :: 0 <= i < |Collapse(s)| ==> Collapse(s)[i] == ' ' || Collapse(s)[i] in s
  {
    JoinWordsCollapsed(Words(s));
    forall i | 0 <= i < |Collapse(s)| ensures Collapse(s)[i] == ' ' || Collapse(s)[i] in s {
      JoinChars(Words(s), " ", i);
      if Collapse(s)[i] != ' ' {
        var k, j :| 0 <= k < |Words(s)| && 0 <= j < |Words(s)[k]| && Words(s)[k][j] == Collapse(s)[i];
        WordsChars(s, k, j);
      }
    }
  }

  /** Words of a collapsed string, read back: collapsing is the identity on it. */
  lemma {:induction false} CollapseOfCollapsed(t: string)
    requires Collapsed(t) && (t == [] || !IsSpace(t[0]))
    ensures Collapse(t) == t
    decreases |t|
  {
    if t != [] {
      var n := WordLen(t);
      if n < |t| {
        var rest := t[n + 1..];
        CollapsedTail(t, n);
        CollapseOfCollapsed(rest);
        CollapseFirstWord(t, n);
        assert t == t[..n] + " " + rest;
      } else {
        assert t[n..] == [] && t[..n] == t;
        assert Words(t) == [t];
      }
    }
  }

  /** After the first word of a collapsed string comes one space and a
      collapsed rest that starts with a word. */
  lemma CollapsedTail(t: string, n: nat)
    requires Collapsed(t) && t != [] && !IsSpace(t[0]) && n == WordLen(t) && n < |t|
    ensures t[n] == ' ' && n + 1 < |t| && !IsSpace(t[n + 1])
    ensures Collapsed(t[n + 1..])
  {
    var rest := t[n + 1..];
    forall i | 0 <= i < |rest| && IsSpace(rest[i])
      ensures rest[i] == ' ' && 0 < i < |rest| - 1 && !IsSpace(rest[i - 1]) && !IsSpace(rest[i + 1])
    {
      assert rest[i] == t[n + 1 + i];
    }
  }

  lemma CollapseFirstWord(t: string, n: nat)
    requires t != [] && !IsSpace(t[0]) && n == WordLen(t) && n + 1 < |t| && IsSpace(t[n]) && !IsSpace(t[n + 1])
    ensures Collapse(t) == t[..n] + " " + Collapse(t[n + 1..])
  {
    WordsAfterSpace(t, n);
    var ws := Words(t);
    assert |ws| > 1 && ws[0] == t[..n] && ws[1..] == Words(t[n + 1..]);
  }

  lemma WordsAfterSpace(t: string, n: nat)
    requires t != [] && !IsSpace(t[0]) && n == WordLen(t) && n + 1 < |t| && IsSpace(t[n]) && !IsSpace(t[n + 1])
    ensures Words(t) == [t[..n]] + Words(t[n + 1..]) && Words(t[n + 1..]) != []
  {
    var rest := t[n + 1..];
    assert t[n..][1..] == rest;
    assert Words(t[n..]) == Words(rest);
    assert WordLen(rest) > 0;
  }


  lemma CollapseIdempotent(s: string)
    ensures Collapse(Collapse(s)) == Collapse(s)
  {
    CollapseProperties(s);
    CollapseOfCollapsed(Collapse(s));
  }

  lemma CollapsedStrip(t: string)
    requires Collapsed(t) && (t == [] || (!IsSpace(t[0]) && !IsSpace(t[|t| - 1])))
    ensures Strip(t) == t
  {
    StripNoEdgeSpace(t);
  }

  /** Collapsing never lengthens a string. */
  lemma {:induction false} CollapseLength(s: string)
    ensures |Collapse(s)| <= |s|
  {
    WordsJoinLength(s);
  }

  lemma {:induction false} WordsJoinLength(s: string)
    ensures |Join(Words(s), " ")| <= |s|
    ensures Words(s) != [] && s != [] && IsSpace(s[0]) ==> |Join(Words(s), " ")| < |s|
    decreases |s|
  {
    if s != [] {
      if IsSpace(s[0]) {
        WordsJoinLength(s[1..]);
      } else {
        var n := WordLen(s);
        WordsJoinLength(s[n..]);
        if Words(s[n..]) != [] {
          assert s[n..] != [] && IsSpace(s[n..][0]);
          assert Join(Words(s), " ") == s[..n] + " " + Join(Words(s[n..]), " ");
        }
      }
    }
  }

  lemma CollapseEmpty(s: string)
    ensures Collapse(s) == [] <==> AllSpace(s)
  {
    WordsEmpty(s);
    if Words(s) != [] {
      JoinWordsCollapsed(Words(s));
    }
  }

  lemma {:induction false} WordsEmpty(s: string)
    ensures Words(s) == [] <==> AllSpace(s)
    decreases |s|
  {
    if s != [] {
      WordsEmpty(s[1..]);
    }
  }

  // ---------------------------------------------------------------------
  // split(sep), splitlines, replace, lower

  /** Python `s.split(sep)` for a non-empty separator. */
  function Split(s: string, sep: string): (r: seq<string>)
    requires sep != []
    ensures |r| >= 1
    decreases |s|
  {
    match IndexOf(s, sep)
    case None => [s]
    case Some(k) => [s[..k]] + Split(s[k + |sep|..], sep)
  }

  /** A one-character needle occurs exactly when the character does. */
  lemma ContainsChar(s: string, c: char)
    ensures Contains(s, [c]) <==> c in s
  {
    if c in s {
      var k :| 0 <= k < |s| && s[k] == c;
      assert s[k..k + 1] == [c];
      assert OccursAt(s, [c], k);
    }
    if Contains(s, [c]) {
      var k := IndexOf(s, [c]).value;
      assert s[k..k + 1] == [c];
      assert s[k] == c;
    }
  }

  /** A string without the separator splits into itself alone. */
  lemma SplitAbsent(s: string, sep: string)
    requires sep != [] && !Contains(s, sep)
    ensures Split(s, sep) == [s]
  {
  }

  /** The first part of a split is everything before the first separator. */
  lemma SplitAtFirst(a: string, c: char, rest: string)
    requires c !in a
    ensures Split(a + [c] + rest, [c]) == [a] + Split(rest, [c])
  {
    var s := a + [c] + rest;
    assert s[|a|..|a| + 1] == [c];
    assert OccursAt(s, [c], |a|);
    assert IndexOf(s, [c]).Some?;
    forall j | 0 <= j < |a| ensures !OccursAt(s, [c], j) {
      assert s[j] == a[j];
    }
    var k := IndexOf(s, [c]).value;
    assert k <= |a|;
    assert k == |a|;
    assert s[..k] == a && s[k + 1..] == rest;
  }

  /** Joining the parts of a split with the separator gives back the string. */
  lemma {:induction false} SplitJoin(s: string, sep: string)
    requires sep != []
    ensures Join(Split(s, sep), sep) == s
    decreases |s|
  {
    var m := IndexOf(s, sep);
    if m.Some? {
      var k := m.value;
      var head, rest := s[..k], s[k + |sep|..];
      var tail := Split(rest, sep);
      SplitJoin(rest, sep);
      assert Split(s, sep) == [head] + tail;
      JoinCons(head, tail, sep);
      assert s == head + sep + rest;
    } else {
      assert Split(s, sep) == [s];
    }
  }

  lemma JoinCons(head: string, tail: seq<string>, sep: string)
    requires tail != []
    ensures Join([head] + tail, sep) == head + sep + Join(tail, sep)
  {
    assert ([head] + tail)[1..] == tail;
  }

  /** No part of a split contains the separator. */
  lemma {:induction false} SplitPartsFree(s: string, sep: string)
    requires sep != []
    ensures forall k :: 0 <= k < |Split(s, sep)| ==> !Contains(Split(s, sep)[k], sep)
    decreases |s|
  {
    match IndexOf(s, sep)
    case None =>
    case Some(k) =>
      var rest := s[k + |sep|..];
      SplitPartsFree(rest, sep);
      NoOccurrenceInPrefix(s, sep, k);
      var r := Split(s, sep);
      var tail := Split(rest, sep);
      assert r == [s[..k]] + tail;
      forall i | 0 <= i < |r| ensures !Contains(r[i], sep) {
        if i > 0 {
          assert r[i] == tail[i - 1];
        }
      }
  }

  /** Every character of a part of a split is a character of the string. */
  lemma {:induction false} SplitPartChars(s: string, sep: string, k: nat, i: nat)
    requires sep != [] && k < |Split(s, sep)| && i < |Split(s, sep)[k]|
    ensures Split(s, sep)[k][i] in s
    decreases |s|
  {
    match IndexOf(s, sep)
    case None =>
    case Some(q) =>
      var rest := s[q + |sep|..];
      if k == 0 {
        assert Split(s, sep)[0] == s[..q];
        assert s[..q][i] == s[i];
      } else {
        assert Split(s, sep)[k] == Split(rest, sep)[k - 1];
        SplitPartChars(rest, sep, k - 1, i);
        var c := Split(s, sep)[k][i];
        var j :| 0 <= j < |rest| && rest[j] == c;
        assert s[q + |sep| + j] == c;
      }
  }

  /** Python `s.split(sep, 1)` when it yields two parts. */
  function SplitOnce(s: string, sep: string): (r: Option<(string, string)>)
    requires sep != []
    ensures r.None? <==> !Contains(s, sep)
    ensures r.Some? ==> r.value.0 + sep + r.value.1 == s && !Contains(r.value.0, sep)
  {
    match IndexOf(s, sep)
    case None => None
    case Some(k) =>
      assert s == s[..k] + sep + s[k + |sep|..];
      NoOccurrenceInPrefix(s, sep, k);
      Some((s[..k], s[k + |sep|..]))
  }

  lemma NoOccurrenceInPrefix(s: string, sep: string, k: nat)
    requires sep != [] && k <= |s|
    requires forall j :: 0 <= j < k ==> !OccursAt(s, sep, j)
    ensures !Contains(s[..k], sep)
  {
    if Contains(s[..k], sep) {
      var j := IndexOf(s[..k], sep).value;
      assert s[..k][j..j + |sep|] == s[j..j + |sep|];
      assert OccursAt(s, sep, j);
    }
  }

  /** Python line boundaries for `splitlines()`. */
  predicate IsLineBreak(c: char)
  {
    var n := c as int;
    n == 0x0A || n == 0x0D || n == 0x0B || n == 0x0C || (0x1C <= n <= 0x1E) || n == 0x85
    || n == 0x2028 || n == 0x2029
  }

  /** Index of the first line boundary, or |s|. */
  function LineLen(s: string): (n: nat)
    ensures n <= |s| && (n < |s| ==> IsLineBreak(s[n]))
    ensures forall i :: 0 <= i < n ==> !IsLineBreak(s[i])
    decreases |s|
  {
    if s == [] || IsLineBreak(s[0]) then 0 else 1 + LineLen(s[1..])
  }

  /** Python `s.splitlines()` (a "\r\n" pair counts as one boundary; no empty
      final line after a trailing boundary). */
  function Lines(s: string): (r: seq<string>)
    ensures forall k :: 0 <= k < |r| ==> forall i :: 0 <= i < |r[k]| ==> !IsLineBreak(r[k][i])
    decreases |s|
  {
    if s == [] then []
    else
      var n := LineLen(s);
      if n == |s| then [s]
      else
        var next := if s[n] == '\r' && n + 1 < |s| && s[n + 1] == '\n' then n + 2 else n + 1;
        [s[..n]] + Lines(s[next..])
  }

  /** Python `s.replace(pat, rep)`: leftmost non-overlapping occurrences. */
  function Replace(s: string, pat: string, rep: string): string
    decreases |s|
  {
    if s == [] then []
    else if pat != [] && StartsWith(s, pat) then rep + Replace(s[|pat|..], pat, rep)
    else [s[0]] + Replace(s[1..], pat, rep)
  }

  /** Replacing a character that does not occur changes nothing. */
  lemma {:induction false} ReplaceAbsentChar(s: string, c: char, rep: string)
    requires c !in s
    ensures Replace(s, [c], rep) == s
    decreases |s|
  {
    if s != [] {
      assert s[..1] == [s[0]];
      ReplaceAbsentChar(s[1..], c, rep);
    }
  }

  /** Removing a character: what is left has none of it and keeps the rest in order. */
  lemma {:induction false} ReplaceCharWithEmpty(s: string, c: char)
    ensures c !in Replace(s, [c], [])
    ensures |Replace(s, [c], [])| <= |s|
    ensures forall x :: x in Replace(s, [c], []) ==> x in s
    decreases |s|
  {
    if s != [] {
      ReplaceCharWithEmpty(s[1..], c);
    }
  }

  /** The characters `Replace` produces come from the input or the replacement. */
  lemma {:induction false} ReplaceChars(s: string, pat: string, rep: string, i: nat)
    requires i < |Replace(s, pat, rep)|
    ensures Replace(s, pat, rep)[i] in s || Replace(s, pat, rep)[i] in rep
    decreases |s|
  {
    if s != [] {
      if pat != [] && StartsWith(s, pat) {
        if i >= |rep| {
          ReplaceChars(s[|pat|..], pat, rep, i - |rep|);
        }
      } else if i > 0 {
        ReplaceChars(s[1..], pat, rep, i - 1);
      }
    }
  }

  /** Removing NUL from a text that has none, followed by more text. */
  lemma {:induction false} ReplaceAppendAbsent(t: string, u: string)
    requires '\0' !in t
    ensures Replace(t + u, "\0", "") == t + Replace(u, "\0", "")
    decreases |t|
  {
    if t == [] {
      assert t + u == u;
    } else {
      var tu := t + u;
      assert tu != [] && tu[0] == t[0] && t[0] != '\0';
      assert !StartsWith(tu, "\0");
      assert tu[1..] == t[1..] + u;
      assert Replace(tu, "\0", "") == [t[0]] + Replace(t[1..] + u, "\0", "");
      ReplaceAppendAbsent(t[1..], u);
      assert [t[0]] + t[1..] == t;
    }
  }

  lemma ReplaceNul()
    ensures Replace("\0", "\0", "") == ""
  {
    assert StartsWith("\0", "\0");
    assert "\0"[1..] == [];
  }

  /** Replacing one character by another is a position-wise map. */
  lemma {:induction false} ReplaceCharByChar(s: string, c: char, d: char)
    ensures |Replace(s, [c], [d])| == |s|
    ensures forall i :: 0 <= i < |s| ==> Replace(s, [c], [d])[i] == if s[i] == c then d else s[i]
    decreases |s|
  {
    if s != [] {
      assert StartsWith(s, [c]) <==> s[0] == c by {
        assert s[..1] == [s[0]];
      }
      ReplaceCharByChar(s[1..], c, d);
    }
  }

  /** Python `re.sub("[^...]", fill, s)` for a one-character class: every character
      outside `allowed` is replaced by `fill`. */
  function SubstituteOutside(s: string, allowed: char -> bool, fill: char): (r: string)
    ensures |r| == |s|
    ensures forall i :: 0 <= i < |s| ==> r[i] == if allowed(s[i]) then s[i] else fill
  {
    seq(|s|, i requires 0 <= i < |s| => if allowed(s[i]) then s[i] else fill)
  }

  function LowerChar(c: char): (r: char)
    ensures !('A' <= r <= 'Z')
  {
    if 'A' <= c <= 'Z' then (c as int + 32) as char else c
  }

  /** Python `s.lower()` for ASCII letters; other characters are left alone. */
  function Lower(s: string): (r: string)
    ensures |r| == |s|
    ensures forall i :: 0 <= i < |s| ==> r[i] == LowerChar(s[i])
  {
    seq(|s|, i requires 0 <= i < |s| => LowerChar(s[i]))
  }

  // ---------------------------------------------------------------------
  // Python slicing with a possibly negative bound, and integer rendering

  /** Python `s[:k]` for any integer `k`. */
  function SliceTo(s: string, k: int): (r: string)
    ensures 0 <= k ==> r == s[..if k <= |s| then k else |s|]
    ensures k < 0 ==> r == s[..if |s| + k >= 0 then |s| + k else 0]
  {
    if k >= 0 then (if k <= |s| then s[..k] else s)
    else if |s| + k >= 0 then s[..|s| + k] else []
  }

  /** Python `s[:n]` for a natural bound. */
  function Take(s: string, n: nat): (r: string)
    ensures |r| <= n && |r| <= |s| && r == s[..|r|]
    ensures |s| <= n ==> r == s
    ensures n <= |s| ==> |r| == n
  {
    if n <= |s| then s[..n] else s
  }

  /** Python `s[-n:]` for n > 0. */
  function TakeLast(s: string, n: nat): (r: string)
    ensures |r| <= n && |r| <= |s| && r == s[|s| - |r|..]
    ensures n <= |s| ==> |r| == n
  {
    if n <= |s| then s[|s| - n..] else s
  }

  function DigitChar(d: nat): (c: char)
    requires d < 10
    ensures IsAsciiDigit(c)
  {
    ('0' as int + d) as char
  }

  /** Python `str(n)` for a natural number. */
  function NatToStr(n: nat): (r: string)
    ensures |r| >= 1 && forall i :: 0 <= i < |r| ==> IsAsciiDigit(r[i])
    ensures n >= 10 ==> |r| >= 2
  {
    if n < 10 then [DigitChar(n)] else NatToStr(n / 10) + [DigitChar(n % 10)]
  }

  /** Python `str(i)` for any integer. */
  function IntToStr(i: int): (r: string)
    ensures |r| >= 1
    ensures i >= 0 <==> r[0] != '-'
  {
    if i >= 0 then NatToStr(i) else "-" + NatToStr(-i)
  }

  /** Decimal rendering is injective: distinct numbers never share a text. */
  lemma {:induction false} NatToStrInjective(a: nat, b: nat)
    requires NatToStr(a) == NatToStr(b)
    ensures a == b
    decreases a
  {
    if a >= 10 && b >= 10 {
      var ra, rb := NatToStr(a), NatToStr(b);
      assert DigitChar(a % 10) == ra[|ra| - 1] == rb[|rb| - 1] == DigitChar(b % 10);
      assert NatToStr(a / 10) == ra[..|ra| - 1] == rb[..|rb| - 1] == NatToStr(b / 10);
      NatToStrInjective(a / 10, b / 10);
    } else if a < 10 && b < 10 {
      assert DigitChar(a) == DigitChar(b);
    }
  }

  lemma IntToStrInjective(a: int, b: int)
    requires IntToStr(a) == IntToStr(b)
    ensures a == b
  {
    if a >= 0 && b >= 0 {
      NatToStrInjective(a, b);
    } else if a < 0 && b < 0 {
      assert IntToStr(a)[1..] == NatToStr(-a);
      assert IntToStr(b)[1..] == NatToStr(-b);
      NatToStrInjective(-a, -b);
    }
  }

  /** Python `f"{n:02d}"` for a natural number. */
  function Pad2(n: nat): (r: string)
    ensures |r| >= 2 && forall i :: 0 <= i < |r| ==> IsAsciiDigit(r[i])
  {
    if n < 10 then "0" + NatToStr(n) else NatToStr(n)
  }

  // ---------------------------------------------------------------------
  // Small steps of strips and splits

  /** Each line stripped, as `[l.strip() for l in lines]`. */
  function StripAll(lines: seq<string>): (r: seq<string>)
    ensures |r| == |lines| && forall k :: 0 <= k < |lines| ==> r[k] == Strip(lines[k])
  {
    seq(|lines|, k requires 0 <= k < |lines| => Strip(lines[k]))
  }

  /** Stripping `c` from the left of `[c] + v`. */
  lemma LStripOne(v: string, c: char)
    requires v != [] && v[0] != c
    ensures LStripChars([c] + v, {c}) == v
  {
    assert ([c] + v)[1..] == v;
  }

  /** Stripping `c` from the right of `v + [c]`. */
  lemma RStripOne(v: string, c: char)
    requires v != [] && v[|v| - 1] != c
    ensures RStripChars(v + [c], {c}) == v
  {
    assert (v + [c])[..|v|] == v;
  }

  /** Stripping `c` from a value wrapped in one `c` on each side. */
  lemma StripWrapped(v: string, c: char)
    requires v != [] && v[0] != c && v[|v| - 1] != c
    ensures StripChars([c] + v + [c], {c}) == v
  {
    var w := v + [c];
    assert [c] + v + [c] == [c] + w;
    LStripOne(w, c);
    RStripOne(v, c);
  }

  /** Stripping `c` from a value that neither starts nor ends with it. */
  lemma StripCharsNoEdge(v: string, c: char)
    requires v != [] && v[0] != c && v[|v| - 1] != c
    ensures StripChars(v, {c}) == v
  {
  }

  /** One more part in front of a split. */
  lemma SplitOneMore(p: string, rest: string, c: char, tail: seq<string>)
    requires c !in p && Split(rest, [c]) == tail
    ensures Split(p + [c] + rest, [c]) == [p] + tail
  {
    SplitAtFirst(p, c, rest);
  }
}
