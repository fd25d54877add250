// The documentation generator, part three: splicing generated text into a
// managed block between two markers, and the major.minor version.
module GenerateDocsBlocks {
  import opened Wrappers
  import opened Text
  import opened Seqs
  import opened SplitFirst

  // ---------------------------------------------------------------------
  // replace_managed_block

  function StartMarker(marker: string): (r: string)
    ensures r != []
  {
    "<!-- " + marker + ":start -->"
  }

  function EndMarker(marker: string): (r: string)
    ensures r != []
  {
    "<!-- " + marker + ":end -->"
  }

  /** What happens to the file: nothing, a new text, or the `ValueError` of
      unpacking a split that found no end marker. */
  datatype BlockResult = Untouched | Written(text: string) | UnpackError

  /** The body of `replace_managed_block` for given start and end markers. */
  function ReplaceBetween(text: string, start: string, end: string, content: string): (r: BlockResult)
    requires start != [] && end != []
    ensures r.Untouched? <==> !Contains(text, start) || !Contains(text, end)
  {
    if !Contains(text, start) || !Contains(text, end) then Untouched
    else
      var (pre, rest) := SplitOnce(text, start).value;
      match SplitOnce(rest, end)
      case None => UnpackError
      case Some((_, post)) => Written(pre + start + Block(content) + end + post)
  }

  /** The new block between the markers: the content on lines of its own. */
  function Block(content: string): string
  {
    "\n" + content + "\n"
  }

  /** `replace_managed_block` on the file's text. */
  function ReplaceBlock(text: string, marker: string, content: string): BlockResult
  {
    ReplaceBetween(text, StartMarker(marker), EndMarker(marker), content)
  }

  /** The block is replaced exactly between the first start marker and the
      first end marker after it. */
  lemma ReplaceBetweenWritten(pre: string, mid: string, post: string, start: string, end: string, content: string)
    requires start != [] && end != [] && FirstAfter(pre, start) && FirstAfter(mid, end)
    ensures ReplaceBetween(pre + start + mid + end + post, start, end, content)
      == Written(pre + start + Block(content) + end + post)
  {
    var rest := mid + end + post;
    var text := pre + start + mid + end + post;
    assert text == pre + start + rest;
    assert SplitOnce(text, start) == Some((pre, rest)) by {
      SplitOnceFirst(pre, start, rest);
    }
    assert SplitOnce(rest, end) == Some((mid, post)) by {
      SplitOnceFirst(mid, end, post);
    }
    assert Contains(text, start) by {
      OccursInMiddle(pre, start, rest);
    }
    assert Contains(text, end) by {
      OccursInMiddle(pre + start + mid, end, post);
    }
    ReplaceBetweenAt(text, start, end, content, pre, rest, mid, post);
  }

  /** `ReplaceBetween` in terms of the two splits it makes. */
  lemma ReplaceBetweenAt(text: string, start: string, end: string, content: string,
                         pre: string, rest: string, mid: string, post: string)
    requires start != [] && end != [] && Contains(text, start) && Contains(text, end)
    requires SplitOnce(text, start) == Some((pre, rest)) && SplitOnce(rest, end) == Some((mid, post))
    ensures ReplaceBetween(text, start, end, content) == Written(pre + start + Block(content) + end + post)
  {
  }

  /** A text is written only when an end marker follows the first start marker. */
  lemma WrittenHasEnd(text: string, start: string, end: string, content: string)
    requires start != [] && end != [] && ReplaceBetween(text, start, end, content).Written?
    ensures Contains(text, start) && Contains(SplitOnce(text, start).value.1, end)
  {
  }

  /** Every written result has that shape. */
  lemma ReplaceBetweenParts(text: string, start: string, end: string, content: string) returns (pre: string, mid: string, post: string)
    requires start != [] && end != [] && ReplaceBetween(text, start, end, content).Written?
    ensures text == pre + start + mid + end + post
    ensures FirstAfter(pre, start) && FirstAfter(mid, end)
    ensures ReplaceBetween(text, start, end, content) == Written(pre + start + Block(content) + end + post)
  {
    WrittenHasEnd(text, start, end, content);
    var rest;
    pre, rest, mid, post := TwoCuts(text, start, end);
    ReplaceBetweenWritten(pre, mid, post, start, end, content);
  }

  /** The two splits `replace_managed_block` makes. */
  lemma TwoCuts(text: string, start: string, end: string) returns (pre: string, rest: string, mid: string, post: string)
    requires start != [] && end != [] && Contains(text, start)
    requires Contains(SplitOnce(text, start).value.1, end)
    ensures SplitOnce(text, start) == Some((pre, rest)) && SplitOnce(rest, end) == Some((mid, post))
    ensures text == pre + start + rest && rest == mid + end + post
    ensures text == pre + start + mid + end + post
    ensures FirstAfter(pre, start) && FirstAfter(mid, end)
  {
    var cut1 := SplitOnce(text, start).value;
    pre, rest := cut1.0, cut1.1;
    var cut2 := SplitOnce(rest, end).value;
    mid, post := cut2.0, cut2.1;
    FirstCut(text, start, pre, rest);
    FirstCut(rest, end, mid, post);
    RegroupFive(pre, start, mid, end, post);
  }

  /** The part before a successful split holds no earlier separator. */
  lemma FirstCut(s: string, sep: string, a: string, b: string)
    requires sep != [] && SplitOnce(s, sep) == Some((a, b))
    ensures FirstAfter(a, sep)
  {
    var a', b' := SplitOnceFirstAfter(s, sep);
  }

  /** With no end marker after the first start marker the split's unpacking
      fails, even when an end marker occurs before it. */
  lemma ReplaceBetweenFails(pre: string, rest: string, start: string, end: string, content: string)
    requires start != [] && end != [] && FirstAfter(pre, start) && !Contains(rest, end) && Contains(pre, end)
    ensures ReplaceBetween(pre + start + rest, start, end, content) == UnpackError
  {
    SplitOnceFirst(pre, start, rest);
    OccursInMiddle(pre, start, rest);
    ContainsConcat(pre, start + rest, end);
    assert pre + (start + rest) == pre + start + rest;
  }

  /** An end marker has no line break when its name has none. */
  lemma EndMarkerOneLine(marker: string)
    requires '\n' !in marker
    ensures '\n' !in EndMarker(marker)
  {
    var e := EndMarker(marker);
    var tail := ":end -->";
    assert e == "<!-- " + marker + tail;
    forall i | 0 <= i < |e| ensures e[i] != '\n' {
      if i < 5 {
      } else if i < 5 + |marker| {
        assert e[i] == marker[i - 5];
      } else {
        assert e[i] == tail[i - 5 - |marker|];
      }
    }
  }

  /** No occurrence of `e` at `j` in `u` when the character at `j + m` is a
      line break and `e` has none. */
  lemma NoOccurrenceOver(u: string, e: string, j: nat, m: nat)
    requires '\n' !in e && m < |e| && j + m < |u| && u[j + m] == '\n'
    ensures !OccursAt(u, e, j)
  {
    assert e[m] in e;
    if j + |e| <= |u| {
      assert u[j..j + |e|][m] == u[j + m];
    }
  }

  /** A separator without line breaks cannot straddle the line breaks
      around a text that does not contain it. */
  lemma FirstAfterLines(content: string, e: string)
    requires e != [] && '\n' !in e && !Contains(content, e)
    ensures FirstAfter(Block(content), e)
  {
    var u := Block(content) + e[..|e| - 1];
    assert u == "\n" + content + "\n" + e[..|e| - 1];
    ContainsIff(content, e);
    forall j: nat ensures !OccursAt(u, e, j) {
      if j == 0 {
        NoOccurrenceOver(u, e, 0, 0);
      } else if j + |e| <= |content| + 1 {
        assert !OccursAt(content, e, j - 1);
        assert content[j - 1..j - 1 + |e|] == u[j..j + |e|];
      } else if j <= |content| + 1 {
        NoOccurrenceOver(u, e, j, |content| + 1 - j);
      }
    }
    ContainsIff(u, e);
  }

  /** Applying the block twice with the same content changes nothing more. */
  lemma ReplaceBetweenIdempotent(text: string, start: string, end: string, content: string)
    requires start != [] && end != [] && ReplaceBetween(text, start, end, content).Written?
    requires '\n' !in end && !Contains(content, end)
    ensures ReplaceBetween(ReplaceBetween(text, start, end, content).text, start, end, content)
      == ReplaceBetween(text, start, end, content)
  {
    var pre, mid, post := ReplaceBetweenParts(text, start, end, content);
    FirstAfterLines(content, end);
    ReplaceBetweenWritten(pre, Block(content), post, start, end, content);
  }

  /** `replace_managed_block` run twice writes the same text twice. */
  lemma ReplaceBlockIdempotent(text: string, marker: string, content: string)
    requires ReplaceBlock(text, marker, content).Written?
    requires '\n' !in marker && !Contains(content, EndMarker(marker))
    ensures ReplaceBlock(ReplaceBlock(text, marker, content).text, marker, content) == ReplaceBlock(text, marker, content)
  {
    EndMarkerOneLine(marker);
    ReplaceBetweenIdempotent(text, StartMarker(marker), EndMarker(marker), content);
  }

  // ---------------------------------------------------------------------
  // main: the major.minor version

  function FirstTwo(parts: seq<string>): seq<string>
  {
    if |parts| <= 2 then parts else parts[..2]
  }

  /** `".".join(version.split(".")[:2]) if "." in version else version`. */
  function MajorMinor(version: string): string
  {
    if '.' in version then Join(FirstTwo(Split(version, ".")), ".") else version
  }

  lemma JoinTwo(a: string, b: string, sep: string)
    ensures Join([a, b], sep) == a + sep + b
  {
    assert [a, b][1..] == [b];
  }

  /** Splitting where only the first two separators matter. */
  lemma SplitTwo(a: string, b: string, c: char)
    requires c !in a && c !in b
    ensures Split(a + [c] + b, [c]) == [a, b]
  {
    ContainsChar(b, c);
    SplitAbsent(b, [c]);
    SplitOneMore(a, b, c, [b]);
  }

  lemma SplitTwoMore(a: string, b: string, rest: string, c: char)
    requires c !in a && c !in b
    ensures Split(a + [c] + (b + [c] + rest), [c]) == [a, b] + Split(rest, [c])
  {
    SplitOneMore(b, rest, c, Split(rest, [c]));
    SplitOneMore(a, b + [c] + rest, c, [b] + Split(rest, [c]));
  }

  /** A version with one dot is kept whole. */
  lemma MajorMinorOneDot(a: string, b: string)
    requires '.' !in a && '.' !in b
    ensures MajorMinor(a + "." + b) == a + "." + b
  {
    var v := a + "." + b;
    assert v[|a|] == '.';
    SplitTwo(a, b, '.');
    JoinTwo(a, b, ".");
  }

  /** A version with more dots keeps what comes before the second one. */
  lemma MajorMinorMoreDots(a: string, b: string, c: string)
    requires '.' !in a && '.' !in b
    ensures MajorMinor(a + "." + b + "." + c) == a + "." + b
  {
    var v := a + "." + b + "." + c;
    assert v[|a|] == '.';
    assert v == a + ['.'] + (b + ['.'] + c);
    SplitTwoMore(a, b, c, '.');
    var parts := Split(v, ".");
    assert FirstTwo(parts) == [a, b];
    JoinTwo(a, b, ".");
  }

  /** At most one dot, and only in the first position that has one. */
  predicate AtMostOneDot(m: string)
  {
    forall i, j :: 0 <= i < j < |m| && m[i] == '.' ==> m[j] != '.'
  }

  /** The major.minor version is a prefix of the version with at most one dot. */
  lemma MajorMinorPrefix(v: string)
    ensures StartsWith(v, MajorMinor(v))
    ensures '.' in v ==> AtMostOneDot(MajorMinor(v))
  {
    match IndexOfChar(v, '.')
    case None =>
    case Some(i) =>
      var a, rest := v[..i], v[i + 1..];
      CutAtDot(v, i);
      match IndexOfChar(rest, '.')
      case None =>
        OneDotCase(a, rest, v);
      case Some(j) =>
        var b, c := rest[..j], rest[j + 1..];
        CutAtDot(rest, j);
        RegroupFive(a, ".", b, ".", c);
        MoreDotsCase(a, b, c, v);
  }

  lemma CutAtDot(v: string, i: nat)
    requires i < |v| && v[i] == '.'
    ensures v == v[..i] + "." + v[i + 1..]
  {
    assert v == v[..i] + [v[i]] + v[i + 1..];
  }

  lemma OneDotCase(a: string, b: string, v: string)
    requires '.' !in a && '.' !in b && v == a + "." + b
    ensures StartsWith(v, MajorMinor(v)) && AtMostOneDot(MajorMinor(v))
  {
    MajorMinorOneDot(a, b);
    OneDot(a, b);
  }

  lemma MoreDotsCase(a: string, b: string, c: string, v: string)
    requires '.' !in a && '.' !in b && v == a + "." + b + "." + c
    ensures StartsWith(v, MajorMinor(v)) && AtMostOneDot(MajorMinor(v))
  {
    MajorMinorMoreDots(a, b, c);
    OneDot(a, b);
    var m := a + "." + b;
    assert v[..|m|] == m;
  }

  lemma OneDot(a: string, b: string)
    requires '.' !in a && '.' !in b
    ensures AtMostOneDot(a + "." + b)
  {
    var m := a + "." + b;
    assert forall i :: 0 <= i < |a| ==> m[i] == a[i];
    assert forall i :: |a| < i < |m| ==> m[i] == b[i - |a| - 1];
  }
}
