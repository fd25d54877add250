// Splitting once at the first occurrence of a separator, in terms of what
// comes before it: the facts shared by the marker-based splits.
module SplitFirst {
  import opened Wrappers
  import opened Text

  /** `sep` written right after `pre` is the first occurrence of `sep`. */
  predicate FirstAfter(pre: string, sep: string)
    requires sep != []
  {
    !Contains(pre + sep[..|sep| - 1], sep)
  }

  /** An occurrence that starts before `|a|` in `a + sep + b` lies inside
      `a + sep[..|sep| - 1]`. */
  lemma EarlyOccurrence(a: string, sep: string, b: string, q: nat)
    requires sep != [] && q < |a| && OccursAt(a + sep + b, sep, q)
    ensures Contains(a + sep[..|sep| - 1], sep)
  {
    var s := a + sep + b;
    var k := |a| + |sep| - 1;
    assert s[..k] == a + sep[..|sep| - 1];
    assert s[..k][q..q + |sep|] == s[q..q + |sep|];
    assert OccursAt(s[..k], sep, q);
    ContainsIff(s[..k], sep);
  }

  /** Splitting once at the first occurrence of a separator. */
  lemma SplitOnceFirst(a: string, sep: string, b: string)
    requires sep != [] && FirstAfter(a, sep)
    ensures SplitOnce(a + sep + b, sep) == Some((a, b))
  {
    var s := a + sep + b;
    assert s[|a|..|a| + |sep|] == sep;
    assert OccursAt(s, sep, |a|);
    var q := IndexOf(s, sep).value;
    if q < |a| {
      EarlyOccurrence(a, sep, b, q);
      assert false;
    }
    assert s[..q] == a && s[q + |sep|..] == b;
  }

  /** The first occurrence found by `IndexOf` is first in the sense of
      `FirstAfter`. */
  lemma IndexOfFirst(s: string, sep: string)
    requires sep != [] && IndexOf(s, sep).Some?
    ensures FirstAfter(s[..IndexOf(s, sep).value], sep)
  {
    var q := IndexOf(s, sep).value;
    var k := q + |sep| - 1;
    var t := s[..q] + sep[..|sep| - 1];
    assert t == s[..k] by {
      assert s[q..q + |sep|] == sep;
    }
    forall j: nat ensures !OccursAt(t, sep, j) {
      if j + |sep| <= |t| {
        assert j < q;
        assert !OccursAt(s, sep, j);
        assert t[j..j + |sep|] == s[j..j + |sep|];
      }
    }
    ContainsIff(t, sep);
  }

  /** `SplitOnce` cuts at the first occurrence. */
  lemma SplitOnceFirstAfter(s: string, sep: string) returns (a: string, b: string)
    requires sep != [] && Contains(s, sep)
    ensures SplitOnce(s, sep) == Some((a, b))
    ensures s == a + sep + b && FirstAfter(a, sep)
  {
    var q := IndexOf(s, sep).value;
    a, b := s[..q], s[q + |sep|..];
    assert s[q..q + |sep|] == sep;
    IndexOfFirst(s, sep);
  }

  lemma OccursInMiddle(a: string, sep: string, b: string)
    ensures Contains(a + sep + b, sep)
  {
    var s := a + sep + b;
    assert s[|a|..|a| + |sep|] == sep;
    assert OccursAt(s, sep, |a|);
  }

  lemma RegroupFive(a: string, b: string, c: string, d: string, e: string)
    ensures a + b + (c + d + e) == a + b + c + d + e
  {
  }
}
