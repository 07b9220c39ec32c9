/** String helpers used by the catalog search: the parts of JavaScript's
    `toLowerCase`, `trim` and `includes` that the filter relies on. */
module Text {

  type String = seq<char>

  /** Upper-case letters that `toLowerCase` maps one-to-one: ASCII A-Z and
      the Latin-1 capitals U+00C0..U+00DE except the multiplication sign. */
  predicate IsUpper(c: char) {
    ('A' <= c <= 'Z') || ('\U{00C0}' <= c <= '\U{00DE}' && c != '\U{00D7}')
  }

  /** Lower-cases one character; every other character is left alone. */
  function Lower(c: char): (r: char)
    ensures !IsUpper(r)
    ensures r != c ==> IsUpper(c)
  {
    if IsUpper(c) then (c as int + 32) as char else c
  }

  /** `s.toLowerCase()`, character by character. */
  function LowerStr(s: String): String {
    seq(|s|, i requires 0 <= i < |s| => Lower(s[i]))
  }

  lemma LowerIdempotent(c: char)
    ensures Lower(Lower(c)) == Lower(c)
  {
  }

  lemma {:induction false} LowerStrIdempotent(s: String)
    ensures LowerStr(LowerStr(s)) == LowerStr(s)
  {
    var l := LowerStr(s);
    forall i | 0 <= i < |s| ensures LowerStr(l)[i] == l[i] {
      LowerIdempotent(s[i]);
    }
  }

  lemma {:induction false} LowerStrConcat(a: String, b: String)
    ensures LowerStr(a + b) == LowerStr(a) + LowerStr(b)
  {
    assert forall i :: 0 <= i < |a| + |b| ==> LowerStr(a + b)[i] == (LowerStr(a) + LowerStr(b))[i];
  }

  /** The characters `String.prototype.trim` removes: ECMAScript WhiteSpace
      (TAB, VT, FF, ZWNBSP and the Unicode space separators) and
      LineTerminator (LF, CR, LS, PS). */
  const Whitespace: set<char> := {
    '\t', '\n', '\U{000B}', '\U{000C}', '\r', ' ', '\U{00A0}', '\U{1680}',
    '\U{2000}', '\U{2001}', '\U{2002}', '\U{2003}', '\U{2004}', '\U{2005}',
    '\U{2006}', '\U{2007}', '\U{2008}', '\U{2009}', '\U{200A}',
    '\U{2028}', '\U{2029}', '\U{202F}', '\U{205F}', '\U{3000}', '\U{FEFF}'
  }

  predicate IsWhitespace(c: char) {
    c in Whitespace
  }

  predicate AllWhitespace(s: String) {
    forall i :: 0 <= i < |s| ==> IsWhitespace(s[i])
  }

  /** Lower-casing never turns whitespace into non-whitespace or back. */
  lemma LowerKeepsWhitespace(c: char)
    ensures IsWhitespace(Lower(c)) <==> IsWhitespace(c)
  {
  }

  /** The first index at or after `i` that does not hold whitespace
      (`|s|` when there is none). */
  function SkipLeading(s: String, i: nat): (a: nat)
    requires i <= |s|
    ensures i <= a <= |s|
    ensures forall k :: i <= k < a ==> IsWhitespace(s[k])
    ensures a < |s| ==> !IsWhitespace(s[a])
    decreases |s| - i
  {
    if i < |s| && IsWhitespace(s[i]) then SkipLeading(s, i + 1) else i
  }

  /** The end of the text once the whitespace before `j`, down to `lo`,
      has been dropped. */
  function SkipTrailing(s: String, lo: nat, j: nat): (b: nat)
    requires lo <= j <= |s|
    ensures lo <= b <= j
    ensures forall k :: b <= k < j ==> IsWhitespace(s[k])
    ensures b > lo ==> !IsWhitespace(s[b - 1])
    decreases j
  {
    if j > lo && IsWhitespace(s[j - 1]) then SkipTrailing(s, lo, j - 1) else j
  }

  /** `s.trim()`: the slice of `s` left once the whitespace at both ends is
      removed. */
  function Trim(s: String): String {
    var a := SkipLeading(s, 0);
    s[a..SkipTrailing(s, a, |s|)]
  }

  /** `Trim` removes whitespace only, and all of it at both ends: its result
      is a slice of `s` surrounded by whitespace, neither starts nor ends
      with whitespace, and is empty exactly when `s` is all whitespace. */
  lemma TrimSpec(s: String)
    ensures exists k :: TrimmedAt(s, Trim(s), k)
    ensures var r := Trim(s); r != [] ==> !IsWhitespace(r[0]) && !IsWhitespace(r[|r| - 1])
    ensures Trim(s) == [] <==> AllWhitespace(s)
  {
    var a := SkipLeading(s, 0);
    var b := SkipTrailing(s, a, |s|);
    assert Trim(s) == s[a..b];
    assert TrimmedAt(s, s[a..b], a);
  }

  /** `r` is the slice of `s` at `k`, and everything around it is whitespace. */
  ghost predicate TrimmedAt(s: String, r: String, k: int) {
    && 0 <= k <= |s| - |r| && r == s[k..k + |r|]
    && (forall i :: 0 <= i < k ==> IsWhitespace(s[i]))
    && (forall i :: k + |r| <= i < |s| ==> IsWhitespace(s[i]))
  }

  /** The conditions in the contract of `SkipLeading` fix its result. */
  lemma SkipLeadingUnique(s: String, i: nat, a: nat)
    requires i <= a <= |s|
    requires forall k :: i <= k < a ==> IsWhitespace(s[k])
    requires a < |s| ==> !IsWhitespace(s[a])
    ensures SkipLeading(s, i) == a
  {
  }

  /** The conditions in the contract of `SkipTrailing` fix its result. */
  lemma SkipTrailingUnique(s: String, lo: nat, j: nat, b: nat)
    requires lo <= b <= j <= |s|
    requires forall k :: b <= k < j ==> IsWhitespace(s[k])
    requires b > lo ==> !IsWhitespace(s[b - 1])
    ensures SkipTrailing(s, lo, j) == b
  {
  }

  /** A text without whitespace at its ends is its own trim. */
  lemma TrimOfTrimmed(s: String)
    requires s != [] ==> !IsWhitespace(s[0]) && !IsWhitespace(s[|s| - 1])
    ensures Trim(s) == s
  {
    SkipLeadingUnique(s, 0, 0);
    SkipTrailingUnique(s, 0, |s|, |s|);
  }

  lemma TrimIdempotent(s: String)
    ensures Trim(Trim(s)) == Trim(s)
  {
    TrimSpec(s);
    TrimOfTrimmed(Trim(s));
  }

  lemma TrimIs(s: String, a: nat, b: nat)
    requires a <= |s| && SkipLeading(s, 0) == a && SkipTrailing(s, a, |s|) == b
    ensures Trim(s) == s[a..b]
  {
  }

  /** Whitespace added around a text does not change its trim. */
  lemma TrimPadded(w1: String, s: String, w2: String)
    requires AllWhitespace(w1) && AllWhitespace(w2)
    ensures Trim(w1 + s + w2) == Trim(s)
  {
    var u := w1 + s + w2;
    var n := |w1|;
    var a := SkipLeading(s, 0);
    var b := SkipTrailing(s, a, |s|);
    PaddedBounds(w1, s, w2, a, b);
    TrimIs(s, a, b);
    if a == |s| {
      TrimIs(u, |u|, |u|);
      assert Trim(u) == [] == Trim(s);
    } else {
      TrimIs(u, n + a, n + b);
      PaddedSlice(w1, s, w2, a, b);
      assert Trim(u) == s[a..b] == Trim(s);
    }
  }

  lemma PaddedSlice(w1: String, s: String, w2: String, a: nat, b: nat)
    requires a <= b <= |s|
    ensures (w1 + s + w2)[|w1| + a..|w1| + b] == s[a..b]
  {
    var u := w1 + s + w2;
    forall j | 0 <= j < b - a ensures u[|w1| + a..|w1| + b][j] == s[a..b][j] {
      assert u[|w1| + a + j] == s[a + j];
    }
  }

  /** Where the trimmed part of `w1 + s + w2` begins and ends. */
  lemma PaddedBounds(w1: String, s: String, w2: String, a: nat, b: nat)
    requires AllWhitespace(w1) && AllWhitespace(w2)
    requires a == SkipLeading(s, 0) && b == SkipTrailing(s, a, |s|)
    ensures a < |s| ==> SkipLeading(w1 + s + w2, 0) == |w1| + a
    ensures a < |s| ==> SkipTrailing(w1 + s + w2, |w1| + a, |w1 + s + w2|) == |w1| + b
    ensures a == |s| ==> SkipLeading(w1 + s + w2, 0) == |w1 + s + w2|
    ensures a == |s| ==> SkipTrailing(w1 + s + w2, |w1 + s + w2|, |w1 + s + w2|) == |w1 + s + w2|
    ensures a == |s| ==> b == a
  {
    var u := w1 + s + w2;
    var n := |w1|;
    forall k | 0 <= k < |u|
      ensures u[k] == if k < n then w1[k] else if k < n + |s| then s[k - n] else w2[k - n - |s|]
    {
    }
    if a == |s| {
      SkipLeadingUnique(u, 0, |u|);
    } else {
      SkipLeadingUnique(u, 0, n + a);
      SkipTrailingUnique(u, n + a, |u|, n + b);
    }
  }

  // ----- `includes` -----

  /** `hay` begins with `prefix`. */
  predicate StartsWith(hay: String, prefix: String) {
    |prefix| <= |hay| && hay[..|prefix|] == prefix
  }

  /** `hay.includes(needle)`: try each starting position from the left. */
  predicate Includes(hay: String, needle: String)
    decreases |hay|
  {
    StartsWith(hay, needle) || (hay != [] && Includes(hay[1..], needle))
  }

  /** `needle` occurs in `hay` starting at index `i`. */
  ghost predicate OccursAt(hay: String, needle: String, i: int) {
    0 <= i && i + |needle| <= |hay| && hay[i..i + |needle|] == needle
  }

  /** `Includes` is exactly substring containment. */
  lemma {:induction false} IncludesIff(hay: String, needle: String)
    ensures Includes(hay, needle) <==> exists i :: OccursAt(hay, needle, i)
    decreases |hay|
  {
    if StartsWith(hay, needle) {
      assert OccursAt(hay, needle, 0);
    } else if hay == [] {
      assert forall i :: !OccursAt(hay, needle, i);
    } else {
      IncludesIff(hay[1..], needle);
      if Includes(hay[1..], needle) {
        var i :| OccursAt(hay[1..], needle, i);
        assert hay[1..][i..i + |needle|] == hay[i + 1..i + 1 + |needle|];
        assert OccursAt(hay, needle, i + 1);
      } else {
        forall i | OccursAt(hay, needle, i) ensures false {
          assert i != 0;
          assert hay[1..][i - 1..i - 1 + |needle|] == hay[i..i + |needle|];
          assert OccursAt(hay[1..], needle, i - 1);
        }
      }
    }
  }

  /** An occurrence at a known index is enough to conclude `Includes`. */
  lemma IncludesAt(hay: String, needle: String, i: nat)
    requires OccursAt(hay, needle, i)
    ensures Includes(hay, needle)
  {
    IncludesIff(hay, needle);
  }
}
