/**
 * The few pieces of Python string behaviour the scenario helpers and the
 * request handler rely on: `str.strip()`, `str.rstrip(chars)`,
 * `str.endswith(...)` and the truthiness of an optional string.
 */
module Strings {
  import opened Wrappers

  /** Python's `str.isspace()` for one character: the Unicode whitespace
      that `str.strip()` with no argument removes. */
  predicate IsSpace(c: char) {
    || ('\t' <= c <= '\r')             // tab, line feed, vertical tab, form feed, carriage return
    || ('\U{1C}' <= c <= ' ')          // the four information separators and the space
    || c == '\U{85}' || c == '\U{A0}' || c == '\U{1680}'
    || ('\U{2000}' <= c <= '\U{200A}')
    || c == '\U{2028}' || c == '\U{2029}' || c == '\U{202F}' || c == '\U{205F}' || c == '\U{3000}'
  }

  predicate IsPercentSign(c: char) {
    c == '%'
  }

  /** `s.rstrip(chars)`: the longest prefix of `s` that does not end in a
      character to drop. */
  function RStrip(s: string, drop: char -> bool): (r: string)
    ensures |r| <= |s| && r == s[..|r|]
    ensures forall i :: |r| <= i < |s| ==> drop(s[i])
    ensures r != [] ==> !drop(r[|r| - 1])
  {
    if s != [] && drop(s[|s| - 1]) then RStrip(s[..|s| - 1], drop) else s
  }

  /** `s.lstrip(chars)`: the longest suffix of `s` that does not start with
      a character to drop. */
  function LStrip(s: string, drop: char -> bool): (r: string)
    ensures |r| <= |s| && r == s[|s| - |r|..]
    ensures forall i :: 0 <= i < |s| - |r| ==> drop(s[i])
    ensures r != [] ==> !drop(r[0])
  {
    if s != [] && drop(s[0]) then LStrip(s[1..], drop) else s
  }

  /** `r` is `s` without its first `i` characters and without some final
      characters, all of the removed ones whitespace. */
  predicate TrimmedAt(s: string, r: string, i: int) {
    && 0 <= i <= |s| - |r|
    && r == s[i..i + |r|]
    && (forall k :: 0 <= k < i ==> IsSpace(s[k]))
    && (forall k :: i + |r| <= k < |s| ==> IsSpace(s[k]))
  }

  /** `s.strip()`: `s` without its leading and trailing whitespace. */
  function Strip(s: string): (r: string)
    ensures r != [] ==> !IsSpace(r[0]) && !IsSpace(r[|r| - 1])
  {
    var t := RStrip(s, IsSpace);
    var r := LStrip(t, IsSpace);
    assert r != [] ==> r[|r| - 1] == t[|t| - 1];
    r
  }

  /** `strip()` removes only whitespace, and only at the two ends: its
      result is a slice of `s` with nothing but whitespace before and after
      it. */
  lemma StripSlice(s: string)
    ensures exists i :: TrimmedAt(s, Strip(s), i)
  {
    var t := RStrip(s, IsSpace);
    var r := LStrip(t, IsSpace);
    assert r == s[|t| - |r|..|t|];
    forall k | 0 <= k < |t| - |r| ensures IsSpace(s[k]) {
      assert s[k] == t[k];
    }
    assert Strip(s) == r;
    assert TrimmedAt(s, r, |t| - |r|);
  }

  /** The contract of `strip()` determines its result: the only slice of `s`
      cut at whitespace on both sides that neither starts nor ends with
      whitespace is `Strip(s)`. */
  lemma StripUnique(s: string, r: string, i: int)
    requires TrimmedAt(s, r, i)
    requires r != [] ==> !IsSpace(r[0]) && !IsSpace(r[|r| - 1])
    ensures Strip(s) == r
  {
    var q := Strip(s);
    StripSlice(s);
    var j :| TrimmedAt(s, q, j);
    StripEmptyIff(s);
    if r != [] && q != [] {
      TrimmedUnique(s, r, i, q, j);
    }
  }

  /** Two slices of `s` cut at whitespace, neither starting nor ending with
      whitespace, are the same slice. */
  lemma TrimmedUnique(s: string, r: string, i: int, q: string, j: int)
    requires TrimmedAt(s, r, i) && TrimmedAt(s, q, j)
    requires r != [] && !IsSpace(r[0]) && !IsSpace(r[|r| - 1])
    requires q != [] && !IsSpace(q[0]) && !IsSpace(q[|q| - 1])
    ensures r == q
  {
    assert s[i] == r[0] && s[j] == q[0];
    assert s[i + |r| - 1] == r[|r| - 1] && s[j + |q| - 1] == q[|q| - 1];
  }

  /** `s.endswith("%")`. */
  predicate EndsWithPercent(s: string) {
    s != [] && s[|s| - 1] == '%'
  }

  /** Python truthiness of an optional string: false exactly for `None` and
      for the empty string. */
  predicate Truthy(t: Option<string>)
    ensures Truthy(t) <==> t != None && t != Some("")
  {
    t.Some? && t.value != ""
  }

  /** `strip()` yields the empty string exactly when every character is
      whitespace. */
  lemma StripEmptyIff(s: string)
    ensures Strip(s) == [] <==> forall i :: 0 <= i < |s| ==> IsSpace(s[i])
  {
  }

  /** `rstrip` removes exactly the trailing run of dropped characters: a
      string that does not end in one, followed by any such run, gives the
      string back. */
  lemma {:induction false} RStripRun(d: string, tail: string, drop: char -> bool)
    requires d == [] || !drop(d[|d| - 1])
    requires forall i :: 0 <= i < |tail| ==> drop(tail[i])
    ensures RStrip(d + tail, drop) == d
  {
    if tail == [] {
      assert d + tail == d;
    } else {
      var s := d + tail;
      assert s[..|s| - 1] == d + tail[..|tail| - 1];
      RStripRun(d, tail[..|tail| - 1], drop);
    }
  }

  /** A string with no whitespace at either end is its own `strip()`. */
  lemma StripTrimmed(s: string)
    requires s != [] ==> !IsSpace(s[0]) && !IsSpace(s[|s| - 1])
    ensures Strip(s) == s
  {
    RStripRun(s, [], IsSpace);
  }
}
