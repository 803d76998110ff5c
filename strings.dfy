/** The JavaScript string operations the storefront's search relies on:
    `trim`, `toLowerCase` and `includes`, over strings of Unicode scalar values. */
module Strings {

  /** White space as String.prototype.trim removes it: the ECMAScript
      WhiteSpace code points (tab, vertical tab, form feed, the space
      separators and the byte order mark) and the LineTerminator code points. */
  predicate IsWhitespace(c: char) {
    c == '\t' || c == '\n' || c == '\U{000B}' || c == '\U{000C}' || c == '\r' ||
    c == ' ' || c == '\U{00A0}' || c == '\U{1680}' ||
    ('\U{2000}' <= c <= '\U{200A}') ||
    c == '\U{2028}' || c == '\U{2029}' || c == '\U{202F}' || c == '\U{205F}' ||
    c == '\U{3000}' || c == '\U{FEFF}'
  }

  /** `s` is made of white space only (the empty string included). */
  ghost predicate IsBlank(s: string) {
    forall i :: 0 <= i < |s| ==> IsWhitespace(s[i])
  }

  /** Drops the leading white space: the result is the longest suffix that
      does not start with white space. */
  function TrimStart(s: string): (r: string)
    ensures |r| <= |s| && r == s[|s| - |r|..]
    ensures r == [] || !IsWhitespace(r[0])
    ensures IsBlank(s[..|s| - |r|])
  {
    if s != [] && IsWhitespace(s[0]) then TrimStart(s[1..]) else s
  }

  /** Drops the trailing white space: the result is the longest prefix that
      does not end with white space. */
  function TrimEnd(s: string): (r: string)
    ensures |r| <= |s| && r == s[..|r|]
    ensures r == [] || !IsWhitespace(r[|r| - 1])
    ensures IsBlank(s[|r|..])
  {
    if s != [] && IsWhitespace(s[|s| - 1]) then TrimEnd(s[..|s| - 1]) else s
  }

  /** String.prototype.trim: no white space is left at either end, and
      nothing is left exactly when `s` is blank; TrimIsInnerSlice shows the
      result is the slice of `s` between a blank front and a blank back. */
  function Trim(s: string): (r: string)
    ensures |r| <= |s|
    ensures r == [] || (!IsWhitespace(r[0]) && !IsWhitespace(r[|r| - 1]))
    ensures r == [] <==> IsBlank(s)
  {
    var t := TrimStart(s);
    var r := TrimEnd(t);
    TrimParts(s, t, r);
    r
  }

  /** Trim returns an inner slice of `s`: what it drops at the front and at
      the back is white space only. */
  lemma TrimIsInnerSlice(s: string) returns (i: int, j: int)
    ensures 0 <= i <= j <= |s|
    ensures Trim(s) == s[i..j] && IsBlank(s[..i]) && IsBlank(s[j..])
  {
    var t := TrimStart(s);
    var r := TrimEnd(t);
    i := |s| - |t|;
    j := i + |r|;
    SliceOfSuffix(s, i, |r|);
  }

  /** The front and back of a suffix of `s` are slices of `s` itself. */
  lemma SliceOfSuffix(s: string, i: int, n: int)
    requires 0 <= i && 0 <= n && i + n <= |s|
    ensures s[i..][..n] == s[i..i + n]
    ensures s[i..][n..] == s[i + n..]
  {
    var front, back := s[i..][..n], s[i..][n..];
    forall k | 0 <= k < n ensures front[k] == s[i..i + n][k] {
      assert front[k] == s[i + k];
    }
    forall k | 0 <= k < |back| ensures back[k] == s[i + n..][k] {
      assert back[k] == s[i + n + k];
    }
  }

  /** How trimming both ends fits together. */
  lemma TrimParts(s: string, t: string, r: string)
    requires t == TrimStart(s) && r == TrimEnd(t)
    ensures r == [] || (!IsWhitespace(r[0]) && !IsWhitespace(r[|r| - 1]))
    ensures r == [] <==> IsBlank(s)
  {
    var k := |s| - |t|;
    if r == [] {
      TrimmedAway(s, t, k);
    } else {
      assert r[0] == t[0] == s[k];
    }
  }

  /** When trimming the end leaves nothing, trimming the start already left
      nothing, so the whole string was white space. */
  lemma TrimmedAway(s: string, t: string, k: int)
    requires t == TrimStart(s) && TrimEnd(t) == [] && k == |s| - |t|
    ensures IsBlank(s)
  {
    assert s[..k] == s;
  }

  /** JavaScript truthiness of `s.trim()`: something other than white space. */
  predicate HasText(s: string) {
    Trim(s) != []
  }

  /** toLowerCase on one character, for the ASCII letters. */
  function LowerChar(c: char): char {
    if 'A' <= c <= 'Z' then (c as int + 32) as char else c
  }

  /** toUpperCase on one character, for the ASCII letters. */
  function UpperChar(c: char): char {
    if 'a' <= c <= 'z' then (c as int - 32) as char else c
  }

  /** String.prototype.toLowerCase, character by character. */
  function ToLower(s: string): (r: string)
    ensures |r| == |s|
    ensures forall i :: 0 <= i < |r| ==> !('A' <= r[i] <= 'Z')
    ensures forall i :: 0 <= i < |s| ==>
      r[i] == s[i] || ('A' <= s[i] <= 'Z' && r[i] as int == s[i] as int + 32)
  {
    seq(|s|, i requires 0 <= i < |s| => LowerChar(s[i]))
  }

  /** `part` occurs in `s` starting at offset `i`. */
  ghost predicate OccursAt(s: string, part: string, i: int) {
    0 <= i <= |s| - |part| && s[i..i + |part|] == part
  }

  /** String.prototype.includes: whether `part` starts at some position of `s`. */
  function Contains(s: string, part: string): bool {
    part <= s || (s != [] && Contains(s[1..], part))
  }

  /** The noun of a count label: singular for exactly one, plural otherwise. */
  function ItemNoun(n: int): string {
    if n == 1 then "item" else "items"
  }

  /** `includes` holds exactly when `part` occurs in `s` at some offset. */
  lemma {:induction false} ContainsIffOccurs(s: string, part: string)
    ensures Contains(s, part) <==> exists i :: OccursAt(s, part, i)
  {
    if part <= s {
      assert OccursAt(s, part, 0);
    } else if s == [] {
    } else {
      ContainsIffOccurs(s[1..], part);
      if Contains(s[1..], part) {
        var i :| OccursAt(s[1..], part, i);
        SliceOfTail(s, i + 1, |part|);
        assert OccursAt(s, part, i + 1);
      } else {
        forall i | 0 <= i <= |s| - |part|
          ensures !OccursAt(s, part, i)
        {
          if i == 0 {
            assert s[..|part|] == s[0..0 + |part|];
          } else {
            SliceOfTail(s, i, |part|);
            assert !OccursAt(s[1..], part, i - 1);
          }
        }
      }
    }
  }

  /** A slice of `s` that starts after its first character is the same
      slice of `s[1..]`, one offset earlier. */
  lemma SliceOfTail(s: string, i: int, n: nat)
    requires 1 <= i && i + n <= |s|
    ensures s[i..i + n] == s[1..][i - 1..i - 1 + n]
  {
    var a := s[i..i + n];
    var b := s[1..][i - 1..i - 1 + n];
    forall j | 0 <= j < n ensures a[j] == b[j] {
      assert a[j] == s[i + j] == b[j];
    }
  }

  /** An empty string and a string of spaces and line breaks carry no text;
      one character that is not white space does. */
  lemma HasTextExamples()
    ensures !HasText("") && !HasText("  \t\n")
    ensures HasText(" a ")
  {
    assert IsBlank("  \t\n");
    assert !IsBlank(" a ") by { assert !IsWhitespace(" a "[1]); }
  }
}
