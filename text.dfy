/** The Python `str` operations the bridge relies on, over `seq<char>`:
    `in`, `find`, `partition`, `rpartition` (with `rfind` behind it),
    `capitalize` (ASCII letters only) and `strip`. */
module Text {

  /** `sep` occurs in `s` starting at index `i`. */
  predicate OccursAt(s: string, sep: string, i: int)
  {
    0 <= i && i + |sep| <= |s| && s[i..i + |sep|] == sep
  }

  /** Python's `sep in s`. */
  predicate Contains(s: string, sep: string)
  {
    exists i | 0 <= i <= |s| :: OccursAt(s, sep, i)
  }

  /** Python's `s.find(c)`: the index of the first `c`, or -1. */
  function IndexOf(s: string, c: char): (r: int)
    ensures -1 <= r < |s|
    ensures r == -1 <==> c !in s
    ensures r >= 0 ==> s[r] == c && c !in s[..r]
  {
    if s == [] then -1
    else if s[0] == c then 0
    else
      var k := IndexOf(s[1..], c);
      if k == -1 then -1
      else
        assert s[..k + 1] == [s[0]] + s[1..][..k];
        k + 1
  }

  /** The greatest index `j <= hi` at which `sep` occurs in `s`, or -1. */
  function RFindAtMost(s: string, sep: string, hi: int): (r: int)
    decreases hi + 1
    ensures r == -1 || (r <= hi && OccursAt(s, sep, r))
    ensures forall j :: r < j <= hi ==> !OccursAt(s, sep, j)
  {
    if hi < 0 then -1
    else if OccursAt(s, sep, hi) then hi
    else RFindAtMost(s, sep, hi - 1)
  }

  /** Python's `s.rfind(sep)`: the index of the last occurrence of `sep`, or -1. */
  function RFind(s: string, sep: string): (r: int)
    ensures r == -1 <==> !Contains(s, sep)
    ensures r >= 0 ==> OccursAt(s, sep, r)
    ensures forall j :: r < j ==> !OccursAt(s, sep, j)
  {
    RFindAtMost(s, sep, |s| - |sep|)
  }

  /** Python's `s.partition(c)` for a one-character separator: the text before
      the first `c`, the separator, and the text after it; `(s, "", "")` when
      `c` does not occur. */
  function Partition(s: string, c: char): (r: (string, string, string))
    ensures c in s ==> r.1 == [c] && r.0 + [c] + r.2 == s && c !in r.0
    ensures c !in s ==> r == (s, "", "")
  {
    var k := IndexOf(s, c);
    if k == -1 then (s, "", "")
    else
      assert s == s[..k] + [c] + s[k + 1..];
      (s[..k], [c], s[k + 1..])
  }

  /** A string that splits around a first `c` splits only one way. */
  lemma PartitionUnique(s: string, c: char, before: string, after: string)
    requires c !in before && s == before + [c] + after
    ensures Partition(s, c) == (before, [c], after)
  {
    assert s[|before|] == c;
    assert s[..|before|] == before;
    assert s[|before| + 1..] == after;
  }

  /** Python's `s.rpartition(sep)`: the text before the last `sep`, the
      separator, and the text after it; `("", "", s)` when `sep` does not occur. */
  function RPartition(s: string, sep: string): (r: (string, string, string))
    ensures Contains(s, sep) ==>
      && r.1 == sep && r.0 + sep + r.2 == s
      && OccursAt(s, sep, |r.0|)
      && forall j :: |r.0| < j ==> !OccursAt(s, sep, j)
    ensures !Contains(s, sep) ==> r == ("", "", s)
  {
    var k := RFind(s, sep);
    if k == -1 then ("", "", s)
    else
      assert s == s[..k] + s[k..k + |sep|] + s[k + |sep|..];
      (s[..k], sep, s[k + |sep|..])
  }

  /** ASCII case mapping; every other character is left alone. */
  predicate IsAsciiUpper(c: char) { 'A' <= c <= 'Z' }
  predicate IsAsciiLower(c: char) { 'a' <= c <= 'z' }

  function Upper(c: char): (r: char)
    ensures !IsAsciiLower(r)
  {
    if IsAsciiLower(c) then (c as int - 32) as char else c
  }

  function Lower(c: char): (r: char)
    ensures !IsAsciiUpper(r)
  {
    if IsAsciiUpper(c) then (c as int + 32) as char else c
  }

  /** Python's `s.lower()`, for ASCII letters. */
  function LowerAll(s: string): (r: string)
    ensures |r| == |s|
    ensures forall i :: 0 <= i < |s| ==> r[i] == Lower(s[i])
  {
    seq(|s|, i requires 0 <= i < |s| => Lower(s[i]))
  }

  /** Python's `s.capitalize()`, for ASCII letters: the first character
      upper-cased, every other one lower-cased. */
  function Capitalize(s: string): (r: string)
    ensures |r| == |s|
    ensures |s| > 0 ==> r[0] == Upper(s[0])
    ensures forall i :: 0 < i < |s| ==> r[i] == Lower(s[i])
  {
    if s == [] then [] else [Upper(s[0])] + LowerAll(s[1..])
  }

  /** Already in the shape `capitalize` produces. */
  predicate IsCapitalized(s: string)
  {
    && (|s| > 0 ==> !IsAsciiLower(s[0]))
    && forall i :: 0 < i < |s| ==> !IsAsciiUpper(s[i])
  }

  /** `capitalize` changes exactly the strings that are not already
      capitalized, so it is idempotent. */
  lemma CapitalizeFixedPoints(s: string)
    ensures IsCapitalized(Capitalize(s))
    ensures Capitalize(s) == s <==> IsCapitalized(s)
  {
    var r := Capitalize(s);
    if IsCapitalized(s) {
      forall i | 0 <= i < |s| ensures r[i] == s[i] {
        if i == 0 { assert !IsAsciiLower(s[0]); } else { assert !IsAsciiUpper(s[i]); }
      }
    }
  }

  /** Capitalizing never introduces or removes a given non-letter character. */
  lemma CapitalizeKeepsNonLetter(s: string, c: char)
    requires !IsAsciiUpper(c) && !IsAsciiLower(c)
    ensures c in Capitalize(s) <==> c in s
  {
    var r := Capitalize(s);
    if c in s {
      var i :| 0 <= i < |s| && s[i] == c;
      assert r[i] == c;
    }
    if c in r {
      var i :| 0 <= i < |r| && r[i] == c;
      assert s[i] == c;
    }
  }

  /** Python's `str.isspace()` for one character. */
  predicate IsSpace(c: char)
  {
    || c == ' ' || '\t' <= c <= '\r' || '\U{1C}' <= c <= '\U{1F}'
    || c == '\U{85}' || c == '\U{A0}' || c == '\U{1680}'
    || '\U{2000}' <= c <= '\U{200A}' || c == '\U{2028}' || c == '\U{2029}'
    || c == '\U{202F}' || c == '\U{205F}' || c == '\U{3000}'
  }

  /** The number of whitespace characters `s` starts with. */
  function LeadingSpace(s: string): (n: nat)
    ensures n <= |s|
    ensures forall i :: 0 <= i < n ==> IsSpace(s[i])
    ensures n < |s| ==> !IsSpace(s[n])
  {
    if s != [] && IsSpace(s[0]) then 1 + LeadingSpace(s[1..]) else 0
  }

  /** The number of whitespace characters `s` ends with. */
  function TrailingSpace(s: string): (n: nat)
    ensures n <= |s|
    ensures forall i :: |s| - n <= i < |s| ==> IsSpace(s[i])
    ensures n < |s| ==> !IsSpace(s[|s| - n - 1])
  {
    if s != [] && IsSpace(s[|s| - 1]) then 1 + TrailingSpace(s[..|s| - 1]) else 0
  }

  /** Python's `s.strip()`: `s` without its leading and trailing whitespace. */
  function Strip(s: string): (r: string)
    ensures r == [] || (!IsSpace(r[0]) && !IsSpace(r[|r| - 1]))
    ensures LeadingSpace(s) + |r| <= |s| && r == s[LeadingSpace(s)..LeadingSpace(s) + |r|]
    ensures forall i :: LeadingSpace(s) + |r| <= i < |s| ==> IsSpace(s[i])
  {
    var lo := LeadingSpace(s);
    var t := s[lo..];
    var hi := |t| - TrailingSpace(t);
    t[..hi]
  }

  /** `LeadingSpace` is the only count its contract allows. */
  lemma LeadingSpaceIs(s: string, n: nat)
    requires n <= |s| && forall i :: 0 <= i < n ==> IsSpace(s[i])
    requires n < |s| ==> !IsSpace(s[n])
    ensures LeadingSpace(s) == n
  {
    var m := LeadingSpace(s);
    assert m < |s| ==> !IsSpace(s[m]);
    assert n < |s| ==> !IsSpace(s[n]);
  }

  /** `TrailingSpace` is the only count its contract allows. */
  lemma TrailingSpaceIs(s: string, n: nat)
    requires n <= |s| && forall i :: |s| - n <= i < |s| ==> IsSpace(s[i])
    requires n < |s| ==> !IsSpace(s[|s| - n - 1])
    ensures TrailingSpace(s) == n
  {
    var m := TrailingSpace(s);
    assert m < |s| ==> !IsSpace(s[|s| - m - 1]);
    assert n < |s| ==> !IsSpace(s[|s| - n - 1]);
  }

  /** Stripping text padded with whitespace on both sides gives the text back. */
  lemma StripPadded(pad: string, text: string)
    requires forall i :: 0 <= i < |pad| ==> IsSpace(pad[i])
    requires text != [] && !IsSpace(text[0]) && !IsSpace(text[|text| - 1])
    ensures Strip(pad + text + pad) == text
  {
    var s := pad + text + pad;
    forall i | 0 <= i < |pad| ensures IsSpace(s[i]) {
      assert s[i] == pad[i];
    }
    assert s[|pad|] == text[0];
    LeadingSpaceIs(s, |pad|);
    var t := s[|pad|..];
    assert t == text + pad;
    forall i | |t| - |pad| <= i < |t| ensures IsSpace(t[i]) {
      assert t[i] == pad[i - |text|];
    }
    assert t[|t| - |pad| - 1] == text[|text| - 1];
    TrailingSpaceIs(t, |pad|);
    assert t[..|text|] == text;
  }
}
