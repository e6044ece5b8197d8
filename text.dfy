/**
 * The string operations the dialog relies on: Python's substring test
 * `k in s`, `str.strip()` and `str.lower()`.
 */
module Text {
  import opened Chars

  /** `pat` occurs in `text` starting at index `i`. */
  predicate OccursAt(pat: string, text: string, i: int) {
    0 <= i && i + |pat| <= |text| && text[i..i + |pat|] == pat
  }

  /** An occurrence in `text[1..]` is an occurrence in `text`, one place later. */
  lemma OccursInTail(pat: string, text: string)
    requires |text| > 0
    ensures (exists i :: OccursAt(pat, text, i)) <==> (pat <= text || exists i :: OccursAt(pat, text[1..], i))
  {
    if i :| OccursAt(pat, text, i) {
      if i > 0 {
        assert text[1..][i - 1..i - 1 + |pat|] == text[i..i + |pat|];
        assert OccursAt(pat, text[1..], i - 1);
      }
    }
    if i :| OccursAt(pat, text[1..], i) {
      assert text[1..][i..i + |pat|] == text[i + 1..i + 1 + |pat|];
      assert OccursAt(pat, text, i + 1);
    }
    if pat <= text {
      assert OccursAt(pat, text, 0);
    }
  }

  /** Python's `pat in text` for strings, computed by the plain scan (is
      `pat` a prefix here, and if not, try one character further on), which
      gives the same answer as Python's `pat in text`. */
  function Contains(pat: string, text: string): bool
    decreases |text|
  {
    pat <= text || (|text| > 0 && Contains(pat, text[1..]))
  }

  /** The scan finds `pat` exactly when it occurs somewhere in `text`. */
  lemma {:induction false} ContainsSpec(pat: string, text: string)
    ensures Contains(pat, text) <==> exists i :: OccursAt(pat, text, i)
    decreases |text|
  {
    if pat <= text {
      assert OccursAt(pat, text, 0);
    } else if |text| == 0 {
      assert forall i :: !OccursAt(pat, text, i);
    } else {
      OccursInTail(pat, text);
      ContainsSpec(pat, text[1..]);
    }
  }

  /** A substring of a substring is a substring. */
  lemma ContainsTransitive(a: string, b: string, text: string)
    requires Contains(a, b) && Contains(b, text)
    ensures Contains(a, text)
  {
    ContainsSpec(a, b);
    ContainsSpec(b, text);
    var i :| OccursAt(a, b, i);
    var j :| OccursAt(b, text, j);
    assert b == text[j..j + |b|];
    forall k | 0 <= k < |a| ensures text[j + i..j + i + |a|][k] == a[k] {
      assert a[k] == b[i + k];
    }
    assert OccursAt(a, text, j + i);
    ContainsSpec(a, text);
  }

  /** Leading whitespace removed (`str.lstrip()`). */
  function TrimStart(s: string): string
    decreases |s|
  {
    if |s| > 0 && IsSpace(s[0]) then TrimStart(s[1..]) else s
  }

  /** `TrimStart` keeps a suffix, drops only whitespace, and stops at the
      first character that is not whitespace. */
  lemma {:induction false} TrimStartSpec(s: string)
    ensures |TrimStart(s)| <= |s| && TrimStart(s) == s[|s| - |TrimStart(s)|..]
    ensures forall k :: 0 <= k < |s| - |TrimStart(s)| ==> IsSpace(s[k])
    ensures TrimStart(s) == [] || !IsSpace(TrimStart(s)[0])
    decreases |s|
  {
    if |s| > 0 && IsSpace(s[0]) {
      TrimStartSpec(s[1..]);
    }
  }

  /** Trailing whitespace removed (`str.rstrip()`). */
  function TrimEnd(s: string): string
    decreases |s|
  {
    if |s| > 0 && IsSpace(s[|s| - 1]) then TrimEnd(s[..|s| - 1]) else s
  }

  /** `TrimEnd` keeps a prefix, drops only whitespace, and stops at the
      last character that is not whitespace. */
  lemma {:induction false} TrimEndSpec(s: string)
    ensures |TrimEnd(s)| <= |s| && TrimEnd(s) == s[..|TrimEnd(s)|]
    ensures forall k :: |TrimEnd(s)| <= k < |s| ==> IsSpace(s[k])
    ensures TrimEnd(s) == [] || !IsSpace(TrimEnd(s)[|TrimEnd(s)| - 1])
    decreases |s|
  {
    if |s| > 0 && IsSpace(s[|s| - 1]) {
      TrimEndSpec(s[..|s| - 1]);
    }
  }

  /** `r` is `s` with whitespace, and only whitespace, cut from both ends. */
  ghost predicate IsStripOf(s: string, r: string) {
    && (r == [] || (!IsSpace(r[0]) && !IsSpace(r[|r| - 1])))
    && exists lo :: StrippedAt(s, r, lo)
  }

  /** `r` sits at `lo` in `s` and everything around it is whitespace. */
  ghost predicate StrippedAt(s: string, r: string, lo: int) {
    && 0 <= lo && lo + |r| <= |s| && s[lo..lo + |r|] == r
    && (forall k :: 0 <= k < lo ==> IsSpace(s[k]))
    && (forall k :: lo + |r| <= k < |s| ==> IsSpace(s[k]))
  }

  /** `str.strip()` with no argument. */
  function Strip(s: string): string {
    TrimEnd(TrimStart(s))
  }

  /** Stripping cuts whitespace, and only whitespace, from both ends. */
  lemma StripSpec(s: string)
    ensures IsStripOf(s, Strip(s))
  {
    var t := TrimStart(s);
    TrimStartSpec(s);
    TrimEndSpec(t);
    StrippedAfterTrims(s, t, TrimEnd(t));
  }

  /** Cutting leading whitespace and then trailing whitespace leaves `r`
      framed by whitespace inside `s`, and `r` starts with neither. */
  lemma StrippedAfterTrims(s: string, t: string, r: string)
    requires |t| <= |s| && t == s[|s| - |t|..]
    requires forall k :: 0 <= k < |s| - |t| ==> IsSpace(s[k])
    requires t == [] || !IsSpace(t[0])
    requires |r| <= |t| && r == t[..|r|]
    requires forall k :: |r| <= k < |t| ==> IsSpace(t[k])
    requires r == [] || !IsSpace(r[|r| - 1])
    ensures r == [] || !IsSpace(r[0])
    ensures StrippedAt(s, r, |s| - |t|)
  {
    var lo := |s| - |t|;
    assert r == s[lo..lo + |r|];
    forall k | lo + |r| <= k < |s| ensures IsSpace(s[k]) {
      assert s[k] == t[k - lo];
    }
    if r != [] {
      assert r[0] == t[0];
    }
  }

  /** Two ways of cutting surrounding whitespace from `s` agree. */
  lemma SameStrip(s: string, r: string, lo: int, r': string, lo': int)
    requires StrippedAt(s, r, lo) && StrippedAt(s, r', lo')
    requires r == [] || (!IsSpace(r[0]) && !IsSpace(r[|r| - 1]))
    requires r' == [] || (!IsSpace(r'[0]) && !IsSpace(r'[|r'| - 1]))
    ensures r == r'
  {
    if r != [] {
      assert s[lo] == r[0];
      assert r' != [];  // otherwise all of s, s[lo] included, would be whitespace
      assert s[lo'] == r'[0];
      assert lo == lo';
      assert s[lo + |r| - 1] == r[|r| - 1];
      assert s[lo' + |r'| - 1] == r'[|r'| - 1];
      assert |r| == |r'|;
    }
  }

  /** The result of stripping is unique: any `r` that is `s` less surrounding whitespace is `Strip(s)`. */
  lemma StripUnique(s: string, r: string)
    requires IsStripOf(s, r)
    ensures r == Strip(s)
  {
    var r' := Strip(s);
    StripSpec(s);
    var lo :| StrippedAt(s, r, lo);
    var lo' :| StrippedAt(s, r', lo');
    SameStrip(s, r, lo, r', lo');
  }

  /** A string that neither starts nor ends with whitespace is left as it is. */
  lemma StripKeeps(s: string)
    requires s == [] || (!IsSpace(s[0]) && !IsSpace(s[|s| - 1]))
    ensures Strip(s) == s
  {
    assert StrippedAt(s, s, 0);
    StripUnique(s, s);
  }

  /** Stripping twice is stripping once. */
  lemma StripIdempotent(s: string)
    ensures Strip(Strip(s)) == Strip(s)
  {
    StripSpec(s);
    StripKeeps(Strip(s));
  }

  /** `str.lower()`, restricted to ASCII letters. This decides
      `lower() in ("exit", "quit")` exactly: no other character lowers to an
      ASCII letter among those, and `İ` lowers to two characters. */
  function Lower(s: string): (r: string)
    ensures |r| == |s|
    ensures forall k :: 0 <= k < |s| && IsAsciiUpper(s[k]) ==> r[k] as int == s[k] as int + 32
    ensures forall k :: 0 <= k < |s| && !IsAsciiUpper(s[k]) ==> r[k] == s[k]
    ensures forall k :: 0 <= k < |r| ==> !IsAsciiUpper(r[k])
  {
    seq(|s|, k requires 0 <= k < |s| => LowerChar(s[k]))
  }

  /** Lowering a lowered string changes nothing. */
  lemma LowerIdempotent(s: string)
    ensures Lower(Lower(s)) == Lower(s)
  {
  }

  /** Two strings lower to the same string exactly when they have the same
      length and agree position by position up to ASCII letter case. */
  lemma {:induction false} LowerEqual(s: string, t: string)
    ensures Lower(s) == Lower(t) <==>
              |s| == |t| && forall k :: 0 <= k < |s| ==> SameUpToCase(s[k], t[k])
  {
    if |s| == |t| && forall k :: 0 <= k < |s| ==> SameUpToCase(s[k], t[k]) {
      forall k | 0 <= k < |s|
        ensures Lower(s)[k] == Lower(t)[k]
      {
        assert SameUpToCase(s[k], t[k]);
      }
    }
    if Lower(s) == Lower(t) {
      forall k | 0 <= k < |s|
        ensures SameUpToCase(s[k], t[k])
      {
        assert Lower(s)[k] == Lower(t)[k];
      }
    }
  }
}
