/**
 * The string operations the application relies on, as ECMAScript defines them:
 * `trim`, `startsWith`, `includes` and (restricted to ASCII) `toLowerCase`.
 */
module Text {

  /** WhiteSpace and LineTerminator code points, the characters `String.prototype.trim` removes. */
  predicate IsJsWhitespace(c: char) {
    c == '\t' || c == '\n' || c == '\U{000B}' || c == '\U{000C}' || c == '\r' || c == ' '
    || c == '\U{00A0}' || c == '\U{1680}' || ('\U{2000}' <= c <= '\U{200A}')
    || c == '\U{2028}' || c == '\U{2029}' || c == '\U{202F}' || c == '\U{205F}'
    || c == '\U{3000}' || c == '\U{FEFF}'
  }

  predicate AllWhitespace(s: string) {
    forall i :: 0 <= i < |s| ==> IsJsWhitespace(s[i])
  }

  /** Drops leading whitespace: the result is the suffix of `s` that starts at its first non-blank character. */
  function TrimStart(s: string): (r: string)
    ensures |r| <= |s| && r == s[|s| - |r|..]
    ensures AllWhitespace(s[..|s| - |r|])
    ensures r == [] || !IsJsWhitespace(r[0])
  {
    if s != [] && IsJsWhitespace(s[0]) then TrimStart(s[1..]) else s
  }

  /** Drops trailing whitespace: the result is the prefix of `s` that ends at its last non-blank character. */
  function TrimEnd(s: string): (r: string)
    ensures |r| <= |s| && r == s[..|r|]
    ensures AllWhitespace(s[|r|..])
    ensures r == [] || !IsJsWhitespace(r[|r| - 1])
  {
    if s != [] && IsJsWhitespace(s[|s| - 1]) then TrimEnd(s[..|s| - 1]) else s
  }

  /** `String.prototype.trim`. */
  function Trim(s: string): string {
    TrimEnd(TrimStart(s))
  }

  /** A string trims to "" exactly when every character of it is whitespace. */
  lemma TrimEmptyIff(s: string)
    ensures Trim(s) == [] <==> AllWhitespace(s)
  {
    var t := TrimStart(s);
    if Trim(s) == [] {
      assert AllWhitespace(t[0..]);
      assert s == s[..|s| - |t|] + t;
    } else {
      var r := Trim(s);
      assert r == t[..|r|];
      assert !IsJsWhitespace(s[|s| - |t|]);
    }
  }

  /** A trimmed string has no blank at either end, so trimming again changes nothing. */
  lemma TrimIdempotent(s: string)
    ensures Trim(Trim(s)) == Trim(s)
  {
    var t := TrimStart(s);
    var r := TrimEnd(t);
    if r != [] {
      assert r[0] == t[0];
      assert TrimStart(r) == r;
      assert TrimEnd(r) == r;
    }
  }

  /** Trimming keeps the contiguous slice that starts where the leading blanks end. */
  lemma TrimIsSlice(s: string)
    ensures var k := |s| - |TrimStart(s)|; k + |Trim(s)| <= |s| && Trim(s) == s[k..k + |Trim(s)|]
  {
    var t := TrimStart(s);
    var r := TrimEnd(t);
    var k := |s| - |t|;
    assert t == s[k..];
    assert r == t[..|r|];
    assert t[..|r|] == s[k..k + |r|];
  }

  /** ASCII part of `String.prototype.toLowerCase`. */
  function LowerChar(c: char): char {
    if 'A' <= c <= 'Z' then (c as int + 32) as char else c
  }

  /** Lower-cases every ASCII capital letter and leaves every other character alone. */
  function Lower(s: string): (r: string)
    ensures |r| == |s|
    ensures forall i :: 0 <= i < |s| ==> r[i] == LowerChar(s[i])
  {
    if s == [] then [] else [LowerChar(s[0])] + Lower(s[1..])
  }

  /** Lower-casing is idempotent: a lowered string has no capital letter left. */
  lemma LowerIdempotent(s: string)
    ensures Lower(Lower(s)) == Lower(s)
    ensures forall i :: 0 <= i < |s| ==> !('A' <= Lower(s)[i] <= 'Z')
  {
  }

  /** A lower-case letter appears in the lowered text only where it, or its capital, appeared before. */
  lemma LetterAbsentAfterLower(s: string, c: char)
    requires 'a' <= c <= 'z'
    requires c !in s && (c as int - 32) as char !in s
    ensures c !in Lower(s)
  {
    forall i | 0 <= i < |s|
      ensures Lower(s)[i] != c
    {
      assert s[i] != c && s[i] != (c as int - 32) as char;
    }
  }

  /** `String.prototype.startsWith`. */
  predicate StartsWith(s: string, prefix: string) {
    |prefix| <= |s| && s[..|prefix|] == prefix
  }

  /** `String.prototype.includes`: some position of `s` starts an occurrence of `pattern`. */
  predicate Contains(s: string, pattern: string)
    decreases |s|
  {
    StartsWith(s, pattern) || (s != [] && Contains(s[1..], pattern))
  }

  /** `Contains` agrees with the positional definition of a substring occurrence, in both directions. */
  lemma {:induction false} ContainsIff(s: string, pattern: string)
    ensures Contains(s, pattern) <==> exists i :: 0 <= i <= |s| && StartsWith(s[i..], pattern)
    decreases |s|
  {
    if Contains(s, pattern) {
      if StartsWith(s, pattern) {
        assert s[0..] == s;
      } else {
        ContainsIff(s[1..], pattern);
        var i :| 0 <= i <= |s| - 1 && StartsWith(s[1..][i..], pattern);
        assert s[1..][i..] == s[i + 1..];
      }
    }
    if exists i :: 0 <= i <= |s| && StartsWith(s[i..], pattern) {
      var i :| 0 <= i <= |s| && StartsWith(s[i..], pattern);
      if i == 0 {
        assert s[0..] == s;
      } else {
        assert s[1..][i - 1..] == s[i..];
        ContainsIff(s[1..], pattern);
      }
    }
  }

  /** An occurrence of a string that itself contains `pattern` is also an occurrence site of `pattern`. */
  lemma ContainsTransitive(s: string, middle: string, pattern: string)
    requires Contains(s, middle) && Contains(middle, pattern)
    ensures Contains(s, pattern)
  {
    ContainsIff(s, middle);
    ContainsIff(middle, pattern);
    var i :| 0 <= i <= |s| && StartsWith(s[i..], middle);
    var j :| 0 <= j <= |middle| && StartsWith(middle[j..], pattern);
    forall k | 0 <= k < |pattern|
      ensures s[i + j..][k] == pattern[k]
    {
      assert middle[j + k] == pattern[k];
      assert s[i..][j + k] == middle[j + k];
    }
    assert StartsWith(s[i + j..], pattern);
    ContainsIff(s, pattern);
  }

  /** Every character of an occurring pattern occurs in `s`; so one that `s` lacks rules the pattern out. */
  lemma ContainedCharsOccur(s: string, pattern: string, c: char)
    requires c in pattern
    ensures Contains(s, pattern) ==> c in s
  {
    if Contains(s, pattern) {
      ContainsIff(s, pattern);
      var i :| 0 <= i <= |s| && StartsWith(s[i..], pattern);
      var k :| 0 <= k < |pattern| && pattern[k] == c;
      assert s[i + k] == c;
    }
  }
}
