/**
 * The part of Go's `strings` package the reconciler relies on: `TrimSpace`,
 * which removes leading and trailing white space as `unicode.IsSpace` defines it.
 */
module GoStrings {

  /** The code points `unicode.IsSpace` reports as white space. */
  predicate IsSpace(c: char) {
    || c == '\t' || c == '\n' || c == '\U{000B}' || c == '\U{000C}' || c == '\r' || c == ' '
    || c == '\U{0085}' || c == '\U{00A0}' || c == '\U{1680}'
    || ('\U{2000}' <= c <= '\U{200A}')
    || c == '\U{2028}' || c == '\U{2029}' || c == '\U{202F}' || c == '\U{205F}' || c == '\U{3000}'
  }

  /** True when every character of `s` is white space (the empty string included). */
  predicate IsBlank(s: string) {
    forall k :: 0 <= k < |s| ==> IsSpace(s[k])
  }

  /** Drops the leading white space: the result is the suffix of `s` that starts at its first non-space. */
  function TrimLeft(s: string): (r: string)
    ensures |r| <= |s| && r == s[|s| - |r|..]
    ensures forall k :: 0 <= k < |s| - |r| ==> IsSpace(s[k])
    ensures r == [] || !IsSpace(r[0])
  {
    if |s| > 0 && IsSpace(s[0]) then TrimLeft(s[1..]) else s
  }

  /** Drops the trailing white space: the result is the prefix of `s` that ends at its last non-space. */
  function TrimRight(s: string): (r: string)
    ensures |r| <= |s| && r == s[..|r|]
    ensures forall k :: |r| <= k < |s| ==> IsSpace(s[k])
    ensures r == [] || !IsSpace(r[|r| - 1])
  {
    if |s| > 0 && IsSpace(s[|s| - 1]) then TrimRight(s[..|s| - 1]) else s
  }

  /**
   * `strings.TrimSpace`: the slice of `s` between its first and its last
   * non-space character, with only white space before and after it; empty
   * exactly when `s` is blank.
   */
  function TrimSpace(s: string): (r: string)
    ensures r == "" <==> IsBlank(s)
    ensures r == "" || (!IsSpace(r[0]) && !IsSpace(r[|r| - 1]))
    ensures exists a :: BlankAround(s, a, r)
  {
    TrimEnds(s, TrimLeft(s), TrimRight(TrimLeft(s)));
    TrimRight(TrimLeft(s))
  }

  /** `t` sits at offset `a` of `s` with nothing but white space before and after it. */
  predicate BlankAround(s: string, a: nat, t: string) {
    a + |t| <= |s| && t == s[a..a + |t|] && IsBlank(s[..a]) && IsBlank(s[a + |t|..])
  }

  /**
   * What trimming both ends gives, from the two trims' own contracts: a slice
   * of `s` with only white space around it and none at its ends, empty
   * exactly when `s` is blank.
   */
  lemma TrimEnds(s: string, l: string, r: string)
    requires |l| <= |s| && l == s[|s| - |l|..] && forall k :: 0 <= k < |s| - |l| ==> IsSpace(s[k])
    requires l == [] || !IsSpace(l[0])
    requires |r| <= |l| && r == l[..|r|] && forall k :: |r| <= k < |l| ==> IsSpace(l[k])
    requires r == [] || !IsSpace(r[|r| - 1])
    ensures r == "" <==> IsBlank(s)
    ensures r == "" || (!IsSpace(r[0]) && !IsSpace(r[|r| - 1]))
    ensures exists a :: BlankAround(s, a, r)
  {
    var a := |s| - |l|;
    SuffixPrefixAround(s, l, r);
    BlankSlice(s, 0, a);
    BlankSlice(s, a + |r|, |s|);
    assert r != "" ==> r[0] == l[0] == s[a];
  }

  /**
   * A suffix `l` of `s` that drops white space only, cut down to a prefix `r`
   * that drops white space only, is a slice of `s` with white space around it.
   */
  lemma SuffixPrefixAround(s: string, l: string, r: string)
    requires |l| <= |s| && l == s[|s| - |l|..] && forall k :: 0 <= k < |s| - |l| ==> IsSpace(s[k])
    requires |r| <= |l| && r == l[..|r|] && forall k :: |r| <= k < |l| ==> IsSpace(l[k])
    ensures BlankAround(s, |s| - |l|, r)
  {
    var a := |s| - |l|;
    forall k | a + |r| <= k < |s|
      ensures IsSpace(s[k])
    {
      assert s[k] == l[k - a];
    }
    BlankOf(s, 0, a);
    BlankOf(s, a + |r|, |s|);
  }

  /**
   * `TrimSpace` is the only slice of `s` that has white space alone around it
   * and no white space at its own ends.
   */
  lemma TrimSpaceUnique(s: string, a: nat, t: string)
    requires BlankAround(s, a, t) && (t == "" || (!IsSpace(t[0]) && !IsSpace(t[|t| - 1])))
    ensures TrimSpace(s) == t
  {
    var r := TrimSpace(s);
    var b :| BlankAround(s, b, r);
    TrimmedSlicesEqual(s, a, t, b, r);
  }

  /** Two slices with white space alone around them and none at their own ends are the same. */
  lemma TrimmedSlicesEqual(s: string, a: nat, t: string, b: nat, r: string)
    requires BlankAround(s, a, t) && (t == "" || (!IsSpace(t[0]) && !IsSpace(t[|t| - 1])))
    requires BlankAround(s, b, r) && (r == "" || (!IsSpace(r[0]) && !IsSpace(r[|r| - 1])))
    ensures t == r
  {
    BlankSlice(s, 0, a);
    BlankSlice(s, a + |t|, |s|);
    BlankSlice(s, 0, b);
    BlankSlice(s, b + |r|, |s|);
    assert t != "" ==> s[a] == t[0] && s[a + |t| - 1] == t[|t| - 1];
    assert r != "" ==> s[b] == r[0] && s[b + |r| - 1] == r[|r| - 1];
    assert t != "" <==> r != "";
    if t != "" {
      assert a == b;
      assert a + |t| == b + |r|;
    }
  }

  /** Each character of `s` between `lo` and `hi` is white space exactly when that slice is blank. */
  lemma BlankOf(s: string, lo: nat, hi: nat)
    requires lo <= hi <= |s| && forall k :: lo <= k < hi ==> IsSpace(s[k])
    ensures IsBlank(s[lo..hi])
  {
    forall k | 0 <= k < hi - lo
      ensures IsSpace(s[lo..hi][k])
    {
      assert s[lo..hi][k] == s[lo + k];
    }
  }

  /** A blank slice of `s` says each of its characters is white space. */
  lemma BlankSlice(s: string, lo: nat, hi: nat)
    requires lo <= hi <= |s| && IsBlank(s[lo..hi])
    ensures forall k :: lo <= k < hi ==> IsSpace(s[k])
  {
    forall k | lo <= k < hi
      ensures IsSpace(s[k])
    {
      assert s[k] == s[lo..hi][k - lo];
    }
  }

  /** Trimming is idempotent: a trimmed string has nothing left to trim. */
  lemma {:induction false} TrimSpaceIdempotent(s: string)
    ensures TrimSpace(TrimSpace(s)) == TrimSpace(s)
  {
    var t := TrimSpace(s);
    if t != "" {
      assert TrimLeft(t) == t;
      assert TrimRight(t) == t;
    }
  }

  /** A string without white space at either end is its own trimming. */
  lemma TrimSpaceKeeps(s: string)
    requires |s| > 0 && !IsSpace(s[0]) && !IsSpace(s[|s| - 1])
    ensures TrimSpace(s) == s
  {
    assert TrimLeft(s) == s;
  }

  /** One blank on each side of a string without white space at its ends is trimmed away. */
  lemma TrimSpacePadded(s: string)
    requires |s| > 0 && !IsSpace(s[0]) && !IsSpace(s[|s| - 1])
    ensures TrimSpace(" " + s + " ") == s
  {
    var padded := " " + s + " ";
    assert padded[1..] == s + " ";
    assert TrimLeft(padded) == TrimLeft(s + " ") == s + " ";
    assert (s + " ")[..|s|] == s;
    assert TrimRight(s + " ") == TrimRight(s) == s;
  }
}
