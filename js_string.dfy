/**
 * `String.prototype.trim` and `startsWith` as the credential extractor uses
 * them. Whitespace is ECMAScript's WhiteSpace and LineTerminator set.
 */
module JsString {

  /** The characters `trim` removes: tab, line feed, vertical tab, form feed,
      carriage return, space, no-break space, ogham space mark, the space
      separators U+2000 to U+200A, line and paragraph separators, narrow
      no-break space, medium mathematical space, ideographic space and BOM. */
  const Whitespace: set<char> :=
    {'\t', '\n', '\U{000B}', '\U{000C}', '\r', ' ', '\U{00A0}', '\U{1680}',
     '\U{2000}', '\U{2001}', '\U{2002}', '\U{2003}', '\U{2004}', '\U{2005}', '\U{2006}',
     '\U{2007}', '\U{2008}', '\U{2009}', '\U{200A}',
     '\U{2028}', '\U{2029}', '\U{202F}', '\U{205F}', '\U{3000}', '\U{FEFF}'}

  predicate IsSpace(c: char) {
    c in Whitespace
  }

  predicate AllSpace(s: string) {
    forall i :: 0 <= i < |s| ==> IsSpace(s[i])
  }

  /** Neither end of `s` is whitespace. */
  predicate Trimmed(s: string) {
    s == [] || (!IsSpace(s[0]) && !IsSpace(s[|s| - 1]))
  }

  /** `s` with its leading whitespace removed: a suffix of `s` that starts with
      a non-space (everything cut off is space: TrimStartCutsSpace). */
  function TrimStart(s: string): (r: string)
    ensures |r| <= |s| && r == s[|s| - |r|..]
    ensures r == [] || !IsSpace(r[0])
  {
    if |s| > 0 && IsSpace(s[0]) then TrimStart(s[1..]) else s
  }

  /** `s` with its trailing whitespace removed: a prefix of `s` that ends with
      a non-space (everything cut off is space: TrimEndCutsSpace). */
  function TrimEnd(s: string): (r: string)
    ensures |r| <= |s| && r == s[..|r|]
    ensures r == [] || !IsSpace(r[|r| - 1])
  {
    if |s| > 0 && IsSpace(s[|s| - 1]) then TrimEnd(s[..|s| - 1]) else s
  }

  lemma {:induction false} TrimStartCutsSpace(s: string)
    ensures AllSpace(s[..|s| - |TrimStart(s)|])
  {
    if |s| > 0 && IsSpace(s[0]) {
      TrimStartCutsSpace(s[1..]);
      var k := |s| - |TrimStart(s)|;
      forall i | 0 <= i < k ensures IsSpace(s[..k][i]) {
        if i > 0 {
          assert s[..k][i] == s[1..][..k - 1][i - 1];
        }
      }
    }
  }

  lemma {:induction false} TrimEndCutsSpace(s: string)
    ensures AllSpace(s[|TrimEnd(s)|..])
  {
    if |s| > 0 && IsSpace(s[|s| - 1]) {
      var s' := s[..|s| - 1];
      TrimEndCutsSpace(s');
      var k := |TrimEnd(s)|;
      forall i | 0 <= i < |s| - k ensures IsSpace(s[k..][i]) {
        if k + i < |s| - 1 {
          assert s[k..][i] == s'[k..][i];
        }
      }
    }
  }

  /** `s.trim()` */
  function Trim(s: string): string {
    TrimEnd(TrimStart(s))
  }

  /** `s.startsWith(p)`, case-sensitive. */
  predicate StartsWith(s: string, p: string) {
    |p| <= |s| && s[..|p|] == p
  }

  /** What `trim` returns is a contiguous piece of the input with no
      whitespace at either end, and only whitespace was cut from either side. */
  lemma TrimIsCore(s: string)
    ensures Trimmed(Trim(s))
    ensures var a := |s| - |TrimStart(s)|;
            a + |Trim(s)| <= |s| &&
            Trim(s) == s[a..a + |Trim(s)|] &&
            AllSpace(s[..a]) && AllSpace(s[a + |Trim(s)|..])
  {
    TrimEndsClean(s);
    TrimSlice(s);
    TrimCutsOnlySpace(s);
  }

  lemma TrimEndsClean(s: string)
    ensures Trimmed(Trim(s))
  {
    var t := TrimStart(s);
    var r := TrimEnd(t);
    if r != [] {
      assert r[0] == t[0];
    }
  }

  lemma TrimSlice(s: string)
    ensures var a := |s| - |TrimStart(s)|;
            a + |Trim(s)| <= |s| && Trim(s) == s[a..a + |Trim(s)|]
  {
    var t := TrimStart(s);
    var r := TrimEnd(t);
    var a := |s| - |t|;
    assert t == s[a..];
    assert r == t[..|r|];
  }

  lemma TrimCutsOnlySpace(s: string)
    ensures var a := |s| - |TrimStart(s)|;
            a + |Trim(s)| <= |s| && AllSpace(s[..a]) && AllSpace(s[a + |Trim(s)|..])
  {
    TrimStartCutsSpace(s);
    TrimBackCutsSpace(s);
  }

  lemma TrimBackCutsSpace(s: string)
    ensures var a := |s| - |TrimStart(s)|;
            a + |Trim(s)| <= |s| && AllSpace(s[a + |Trim(s)|..])
  {
    var t := TrimStart(s);
    TrimEndCutsSpace(t);
    SuffixSpace(s, t, |s| - |t|, |TrimEnd(t)|);
  }

  lemma SuffixSpace(s: string, t: string, a: nat, k: nat)
    requires a <= |s| && t == s[a..] && k <= |t| && AllSpace(t[k..])
    ensures AllSpace(s[a + k..])
  {
    var tail := s[a + k..];
    forall i | 0 <= i < |tail| ensures IsSpace(tail[i]) {
      assert tail[i] == t[k..][i];
    }
  }

  /** `trim` yields the empty string exactly for all-whitespace input. */
  lemma TrimEmptyIffAllSpace(s: string)
    ensures Trim(s) == [] <==> AllSpace(s)
  {
    TrimIsCore(s);
    var a := |s| - |TrimStart(s)|;
    if Trim(s) == [] {
      var front, back := s[..a], s[a..];
      assert AllSpace(front) && AllSpace(back);
      assert s == front + back;
    } else {
      assert Trim(s)[0] == s[a];
    }
  }

  /** A string with no whitespace at its ends is left alone by `trim`. */
  lemma {:induction false} TrimOfTrimmed(s: string)
    requires Trimmed(s)
    ensures Trim(s) == s
  {
  }

  /** `trim` is idempotent. */
  lemma TrimIdempotent(s: string)
    ensures Trim(Trim(s)) == Trim(s)
  {
    TrimIsCore(s);
    TrimOfTrimmed(Trim(s));
  }
}
