/**
 * The two Python string operations the review templates apply, `str.strip()`
 * and `str.lower()`, and the predicates used to state facts about sentences.
 */
module Text {

  /** The characters for which Python's `str.isspace()` holds. */
  const WhitespaceChars: set<char> := {
    ' ', '\t', '\n', '\U{0b}', '\U{0c}', '\r',
    '\U{1c}', '\U{1d}', '\U{1e}', '\U{1f}', '\U{85}', '\U{a0}', '\U{1680}',
    '\U{2000}', '\U{2001}', '\U{2002}', '\U{2003}', '\U{2004}', '\U{2005}',
    '\U{2006}', '\U{2007}', '\U{2008}', '\U{2009}', '\U{200a}',
    '\U{2028}', '\U{2029}', '\U{202f}', '\U{205f}', '\U{3000}'
  }

  predicate IsWhitespace(c: char) {
    c in WhitespaceChars
  }

  /** No whitespace at either end: what `str.strip()` leaves. */
  predicate Trimmed(s: string) {
    s == [] || (!IsWhitespace(s[0]) && !IsWhitespace(s[|s| - 1]))
  }

  predicate StartsWith(s: string, prefix: string) {
    |prefix| <= |s| && s[..|prefix|] == prefix
  }

  predicate EndsWith(s: string, suffix: string) {
    |suffix| <= |s| && s[|s| - |suffix|..] == suffix
  }

  /** `part in s` in Python: `part` occurs somewhere in `s`. */
  predicate Contains(s: string, part: string) {
    exists lo :: 0 <= lo <= |s| - |part| && s[lo..][..|part|] == part
  }

  /** Every character is whitespace (vacuously so for the empty string). */
  predicate AllWhitespace(s: string) {
    s == [] || (IsWhitespace(s[0]) && AllWhitespace(s[1..]))
  }

  /** A concatenation is all whitespace exactly when both halves are. */
  lemma {:induction false} AllWhitespaceAppend(a: string, b: string)
    ensures AllWhitespace(a + b) <==> AllWhitespace(a) && AllWhitespace(b)
  {
    if a == [] {
      assert a + b == b;
    } else {
      assert (a + b)[0] == a[0];
      assert (a + b)[1..] == a[1..] + b;
      AllWhitespaceAppend(a[1..], b);
    }
  }

  /** Removes the longest all-whitespace prefix (`str.lstrip()`). */
  function StripLeft(s: string): (r: string)
    ensures |r| <= |s| && r == s[|s| - |r|..]
    ensures r == [] || !IsWhitespace(r[0])
    ensures AllWhitespace(s[..|s| - |r|])
  {
    if |s| > 0 && IsWhitespace(s[0]) then
      var r := StripLeft(s[1..]);
      assert s[..|s| - |r|] == [s[0]] + s[1..][..|s[1..]| - |r|];
      AllWhitespaceAppend([s[0]], s[1..][..|s[1..]| - |r|]);
      r
    else
      assert s[..0] == [];
      s
  }

  /** Removes the longest all-whitespace suffix (`str.rstrip()`). */
  function StripRight(s: string): (r: string)
    ensures |r| <= |s| && r == s[..|r|]
    ensures r == [] || !IsWhitespace(r[|r| - 1])
    ensures AllWhitespace(s[|r|..])
  {
    if |s| > 0 && IsWhitespace(s[|s| - 1]) then
      var r := StripRight(s[..|s| - 1]);
      assert s[|r|..] == s[..|s| - 1][|r|..] + [s[|s| - 1]];
      AllWhitespaceAppend(s[..|s| - 1][|r|..], [s[|s| - 1]]);
      r
    else
      assert s[|s|..] == [];
      s
  }

  /** Python's `str.strip()`: whitespace removed from both ends. */
  function Strip(s: string): (r: string)
    ensures Trimmed(r) && |r| <= |s|
  {
    var left := StripLeft(s);
    var r := StripRight(left);
    assert r != [] ==> r[0] == left[0];
    r
  }

  /**
   * What strip keeps is a slice of its input, and everything it cuts off on
   * either side is whitespace.
   */
  lemma StripIsSlice(s: string)
    ensures var r := Strip(s);
      exists lo :: 0 <= lo <= |s| - |r| && r == s[lo..][..|r|]
                   && AllWhitespace(s[..lo]) && AllWhitespace(s[lo + |r|..])
  {
    var left := StripLeft(s);
    var r := StripRight(left);
    var lo := |s| - |left|;
    assert r == s[lo..][..|r|];
    assert s[lo + |r|..] == left[|r|..];
  }

  /** A string that opens with a non-whitespace character does not strip to nothing. */
  lemma StripNonEmpty(s: string)
    requires s != [] && !IsWhitespace(s[0])
    ensures Strip(s) != []
  {
    assert StripLeft(s) == s;
    assert s[0..] == s;
  }

  /** Strip leaves a string that already has no surrounding whitespace alone. */
  lemma StripTrimmed(s: string)
    requires Trimmed(s)
    ensures Strip(s) == s
  {
  }

  /** Stripping twice is stripping once. */
  lemma StripIdempotent(s: string)
    ensures Strip(Strip(s)) == Strip(s)
  {
    StripTrimmed(Strip(s));
  }

  /** Stripping drops trailing whitespace after a string with none at its ends. */
  lemma StripTrailingSpace(s: string, tail: string)
    requires s != [] && Trimmed(s) && AllWhitespace(tail)
    ensures Strip(s + tail) == s
  {
    var st := s + tail;
    assert StripLeft(st) == st;
    StripRightTail(s, tail);
  }

  lemma {:induction false} StripRightTail(s: string, tail: string)
    requires s != [] && !IsWhitespace(s[|s| - 1]) && AllWhitespace(tail)
    ensures StripRight(s + tail) == s
    decreases |tail|
  {
    if tail == [] {
      assert s + tail == s;
    } else {
      var shorter := tail[..|tail| - 1];
      assert tail == shorter + [tail[|tail| - 1]];
      AllWhitespaceAppend(shorter, [tail[|tail| - 1]]);
      assert (s + tail)[..|s + tail| - 1] == s + shorter;
      StripRightTail(s, shorter);
    }
  }

  /** A prefix survives appending more text. */
  lemma StartsWithAppend(s: string, prefix: string, more: string)
    requires StartsWith(s, prefix)
    ensures StartsWith(s + more, prefix)
  {
    assert (s + more)[..|prefix|] == s[..|prefix|];
  }

  /** A string is a prefix of itself followed by more text. */
  lemma StartsWithSelf(s: string, more: string)
    ensures StartsWith(s + more, s)
  {
    assert (s + more)[..|s|] == s;
  }

  /** A string is a suffix of itself preceded by more text. */
  lemma EndsWithSelf(more: string, s: string)
    ensures EndsWith(more + s, s)
  {
    assert (more + s)[|more|..] == s;
  }

  /** Appending the same text to a string and to its suffix keeps it a suffix. */
  lemma EndsWithAppend(s: string, suffix: string, more: string)
    requires EndsWith(s, suffix)
    ensures EndsWith(s + more, suffix + more)
  {
    assert (s + more)[|s + more| - |suffix + more|..] == s[|s| - |suffix|..] + more;
  }

  /** An occurrence survives adding text on either side. */
  lemma ContainsAppend(s: string, part: string, more: string)
    requires Contains(s, part)
    ensures Contains(s + more, part) && Contains(more + s, part)
  {
    var lo :| 0 <= lo <= |s| - |part| && s[lo..][..|part|] == part;
    assert (s + more)[lo..][..|part|] == part;
    assert (more + s)[|more| + lo..][..|part|] == part;
  }

  /** Every string occurs in itself. */
  lemma ContainsSelf(s: string)
    ensures Contains(s, s)
  {
    assert s[0..][..|s|] == s;
  }

  /** An occurrence in a prefix is an occurrence in the whole string. */
  lemma ContainsInPrefix(s: string, prefix: string, part: string)
    requires StartsWith(s, prefix) && Contains(prefix, part)
    ensures Contains(s, part)
  {
    var lo :| 0 <= lo <= |prefix| - |part| && prefix[lo..][..|part|] == part;
    assert s[lo..][..|part|] == s[..|prefix|][lo..][..|part|];
  }

  /** Every piece of a concatenation occurs in any string the concatenation begins. */
  lemma ConcatPartInPrefix(s: string, parts: seq<string>, k: nat)
    requires StartsWith(s, Concat(parts)) && k < |parts|
    ensures Contains(s, parts[k])
  {
    ConcatContains(parts, k);
    ContainsInPrefix(s, Concat(parts), parts[k]);
  }

  /** Every piece of a concatenation occurs in any string the concatenation begins. */
  lemma PrefixContainsParts(s: string, parts: seq<string>)
    requires StartsWith(s, Concat(parts))
    ensures forall k :: 0 <= k < |parts| ==> Contains(s, parts[k])
  {
    forall k | 0 <= k < |parts|
      ensures Contains(s, parts[k])
    {
      ConcatPartInPrefix(s, parts, k);
    }
  }

  /** A run of consecutive pieces occurs in the concatenation. */
  lemma ConcatContainsRun(parts: seq<string>, i: nat, j: nat)
    requires i <= j <= |parts|
    ensures Contains(Concat(parts), Concat(parts[i..j]))
  {
    ConcatSplit(parts, i);
    ConcatSplit(parts[i..], j - i);
    assert parts[i..][..j - i] == parts[i..j];
    var x, y, z := Concat(parts[..i]), Concat(parts[i..j]), Concat(parts[i..][j - i..]);
    assert Concat(parts) == x + (y + z);
    ContainsSelf(y);
    ContainsAppend(y, y, z);
    ContainsAppend(y + z, y, x);
  }

  /** A string that contains a non-empty part is not empty. */
  lemma ContainsNonEmpty(s: string, part: string)
    requires Contains(s, part) && part != []
    ensures s != []
  {
  }

  /** `str.lower()` on one character; only ASCII letters are modelled. */
  function LowerChar(c: char): char {
    if 'A' <= c <= 'Z' then (c as int + 32) as char else c
  }

  /** Python's `str.lower()`, character by character. */
  function Lower(s: string): (r: string)
    ensures |r| == |s|
  {
    if s == [] then [] else [LowerChar(s[0])] + Lower(s[1..])
  }

  /** Lower-casing maps each character on its own and leaves no ASCII capital. */
  lemma {:induction false} LowerPointwise(s: string)
    ensures forall i :: 0 <= i < |s| ==> Lower(s)[i] == LowerChar(s[i])
    ensures forall i :: 0 <= i < |s| ==> !('A' <= Lower(s)[i] <= 'Z')
  {
    if s != [] {
      LowerPointwise(s[1..]);
      assert forall i :: 1 <= i < |s| ==> Lower(s)[i] == Lower(s[1..])[i - 1];
    }
  }

  /**
   * The concatenation of a list of pieces, as a Python f-string joins its
   * literal text and its substituted values.
   */
  function Concat(parts: seq<string>): string {
    if parts == [] then [] else parts[0] + Concat(parts[1..])
  }

  /** A concatenation splits at any piece boundary. */
  lemma {:induction false} ConcatSplit(parts: seq<string>, k: nat)
    requires k <= |parts|
    ensures Concat(parts) == Concat(parts[..k]) + Concat(parts[k..])
  {
    if k == 0 {
      assert parts[..k] == [];
      assert parts[k..] == parts;
    } else {
      ConcatSplit(parts[1..], k - 1);
      assert parts[1..][..k - 1] == parts[1..k];
      assert parts[1..][k - 1..] == parts[k..];
      assert parts[..k][1..] == parts[1..k];
    }
  }

  /** Every piece occurs in the concatenation. */
  lemma ConcatContains(parts: seq<string>, k: nat)
    requires k < |parts|
    ensures Contains(Concat(parts), parts[k])
  {
    ConcatSplit(parts, k);
    var rest := parts[k..];
    assert Concat(rest) == parts[k] + Concat(rest[1..]);
    var s := Concat(parts);
    var lo := |Concat(parts[..k])|;
    assert s[lo..] == Concat(rest);
    assert s[lo..][..|parts[k]|] == parts[k];
  }

  /** The concatenation opens with the concatenation of its first pieces. */
  lemma ConcatStartsWith(parts: seq<string>, k: nat)
    requires k <= |parts|
    ensures StartsWith(Concat(parts), Concat(parts[..k]))
  {
    ConcatSplit(parts, k);
  }

  /** The concatenation ends with the concatenation of its last pieces. */
  lemma ConcatEndsWith(parts: seq<string>, k: nat)
    requires k <= |parts|
    ensures EndsWith(Concat(parts), Concat(parts[k..]))
  {
    ConcatSplit(parts, k);
  }
}
