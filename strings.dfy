/** The few JavaScript string operations the authorization layer relies on. */
module Strings {

  /** `s.startsWith(prefix)` */
  predicate StartsWith(s: string, prefix: string)
  {
    |prefix| <= |s| && s[..|prefix|] == prefix
  }

  /** `s.includes(part)`: `part` occurs somewhere in `s`. */
  predicate Includes(s: string, part: string)
    decreases |s|
  {
    StartsWith(s, part) || (|s| > 0 && Includes(s[1..], part))
  }

  /** `s.substring(n)` for the prefix lengths used here. */
  function Drop(s: string, n: nat): (r: string)
    ensures n <= |s| ==> s == s[..n] + r
    ensures n > |s| ==> r == []
  {
    if n <= |s| then s[n..] else []
  }

  /** The chars that `String.prototype.trim` removes. */
  predicate IsSpace(c: char)
  {
    c == ' ' || c == '\t' || c == '\n' || c == '\r' || c == '\U{000B}' || c == '\U{000C}'
    || c == '\U{00A0}' || c == '\U{1680}' || ('\U{2000}' <= c <= '\U{200A}')
    || c == '\U{2028}' || c == '\U{2029}' || c == '\U{202F}' || c == '\U{205F}'
    || c == '\U{3000}' || c == '\U{FEFF}'
  }

  /** `!s.trim()`: nothing but white space. */
  predicate IsBlank(s: string)
  {
    forall i :: 0 <= i < |s| ==> IsSpace(s[i])
  }

  /** The regular-expression class `\d`. */
  predicate IsDigit(c: char)
  {
    '0' <= c <= '9'
  }

  /** Number of chars of `s` that `isSep` accepts. */
  function CountWhere(s: string, isSep: char -> bool): nat
  {
    if s == [] then 0 else (if isSep(s[0]) then 1 else 0) + CountWhere(s[1..], isSep)
  }

  /** `s.split(sep)` where `sep` matches exactly one char and is given as a char class. */
  function Split(s: string, isSep: char -> bool): (parts: seq<string>)
    ensures |parts| == 1 + CountWhere(s, isSep)
    ensures forall k, j :: 0 <= k < |parts| && 0 <= j < |parts[k]| ==> !isSep(parts[k][j])
    ensures |parts[0]| <= |s| && parts[0] == s[..|parts[0]|]
    ensures |parts[0]| < |s| ==> isSep(s[|parts[0]|])
  {
    if s == [] then [[]]
    else
      var rest := Split(s[1..], isSep);
      if isSep(s[0]) then [[]] + rest
      else [[s[0]] + rest[0]] + rest[1..]
  }

  /** A segment that starts the string, holds no separator and ends at a separator or at the end is the first segment. */
  lemma {:induction false} FirstSegmentIs(s: string, isSep: char -> bool, p: string)
    requires |p| <= |s| && p == s[..|p|]
    requires forall j :: 0 <= j < |p| ==> !isSep(p[j])
    requires |p| < |s| ==> isSep(s[|p|])
    ensures Split(s, isSep)[0] == p
  {
  }

  /** A string with no separator splits into itself alone. */
  lemma {:induction false} SplitWithoutSeparator(s: string, isSep: char -> bool)
    requires forall j :: 0 <= j < |s| ==> !isSep(s[j])
    ensures Split(s, isSep) == [s]
  {
    if s != [] {
      SplitWithoutSeparator(s[1..], isSep);
      assert [s[0]] + s[1..] == s;
    }
  }
}
