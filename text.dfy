/**
 * The string operations the views rely on: JavaScript's `trim`, an ASCII
 * `toLowerCase`, `includes` on strings and `split(c)[0]`.
 */
module Text {

  /**
   * The characters `String.prototype.trim` removes: the ECMAScript
   * WhiteSpace set (tab, vertical tab, form feed, zero-width no-break space
   * and every space separator of Unicode category Zs) and the LineTerminator
   * set (line feed, carriage return, line and paragraph separator).
   */
  predicate IsSpace(c: char) {
    || c == '\t' || c == '\n' || c == '\U{B}' || c == '\U{C}' || c == '\r'
    || c == ' ' || c == '\U{A0}' || c == '\U{1680}'
    || ('\U{2000}' <= c <= '\U{200A}')
    || c == '\U{2028}' || c == '\U{2029}' || c == '\U{202F}' || c == '\U{205F}'
    || c == '\U{3000}' || c == '\U{FEFF}'
  }

  /** True when every character of s is white space (the empty string included). */
  ghost predicate IsBlank(s: string) {
    forall i :: 0 <= i < |s| ==> IsSpace(s[i])
  }

  /** The number of white-space characters at the start of s. */
  function LeadingSpaces(s: string): (k: nat)
    ensures k <= |s|
    ensures forall i :: 0 <= i < k ==> IsSpace(s[i])
    ensures k < |s| ==> !IsSpace(s[k])
    decreases |s|
  {
    if |s| > 0 && IsSpace(s[0]) then 1 + LeadingSpaces(s[1..]) else 0
  }

  /** The number of white-space characters at the end of s. */
  function TrailingSpaces(s: string): (k: nat)
    ensures k <= |s|
    ensures forall i :: |s| - k <= i < |s| ==> IsSpace(s[i])
    ensures k < |s| ==> !IsSpace(s[|s| - 1 - k])
    decreases |s|
  {
    if |s| > 0 && IsSpace(s[|s| - 1]) then 1 + TrailingSpaces(s[..|s| - 1]) else 0
  }

  /** `s.trim()`: s without its leading and trailing white space. */
  function Trim(s: string): (r: string)
    ensures |r| <= |s|
    ensures r == "" <==> IsBlank(s)
    ensures r != "" ==> !IsSpace(r[0]) && !IsSpace(r[|r| - 1])
    ensures forall c :: c in r ==> c in s
    ensures exists k, j :: 0 <= k <= j <= |s| && r == s[k..j] && IsBlank(s[..k]) && IsBlank(s[j..])
  {
    var lead := LeadingSpaces(s);
    if lead == |s| then
      assert s[..0] == [] && s[0..] == s;
      ""
    else
      var trail := TrailingSpaces(s);
      assert lead < |s| - trail;
      assert IsBlank(s[..lead]) && IsBlank(s[|s| - trail..]);
      s[lead..|s| - trail]
  }

  /** A character that is not white space survives trimming exactly when it occurs in s. */
  lemma TrimKeeps(s: string, c: char)
    requires !IsSpace(c)
    ensures c in Trim(s) <==> c in s
  {
    if c in s {
      var j :| 0 <= j < |s| && s[j] == c;
      var lead := LeadingSpaces(s);
      var trail := TrailingSpaces(s);
      assert lead <= j < |s| - trail;
      assert Trim(s)[j - lead] == c;
    }
  }

  /** ASCII upper-case letters map to lower case; every other character is kept. */
  function LowerChar(c: char): (d: char)
    ensures 'A' <= c <= 'Z' ==> 'a' <= d <= 'z'
    ensures !('A' <= c <= 'Z') ==> d == c
  {
    if 'A' <= c <= 'Z' then (c as int + 32) as char else c
  }

  /** `s.toLowerCase()`, restricted to ASCII letters. */
  function Lower(s: string): (r: string)
    ensures |r| == |s|
    ensures forall i :: 0 <= i < |s| ==> r[i] == LowerChar(s[i])
  {
    seq(|s|, i requires 0 <= i < |s| => LowerChar(s[i]))
  }

  predicate StartsWith(s: string, q: string) {
    |q| <= |s| && s[..|q|] == q
  }

  /** `s.includes(q)`: q occurs in s as a contiguous block. */
  predicate Includes(s: string, q: string)
    ensures Includes(s, q) ==> |q| <= |s|
    ensures StartsWith(s, q) ==> Includes(s, q)
    decreases |s|
  {
    StartsWith(s, q) || (|s| > 0 && Includes(s[1..], q))
  }

  /** Includes holds exactly when q occurs at some position of s. */
  lemma {:induction false} IncludesAt(s: string, q: string, k: nat)
    requires k + |q| <= |s|
    ensures s[k..k + |q|] == q ==> Includes(s, q)
    decreases k
  {
    if k > 0 && s[k..k + |q|] == q {
      assert s[1..][k - 1..k - 1 + |q|] == s[k..k + |q|];
      IncludesAt(s[1..], q, k - 1);
    }
  }

  /** Conversely, when s includes q there is a position where q occurs. */
  lemma {:induction false} IncludesHasPosition(s: string, q: string) returns (k: nat)
    requires Includes(s, q)
    ensures k + |q| <= |s| && s[k..k + |q|] == q
    decreases |s|
  {
    if StartsWith(s, q) {
      k := 0;
    } else {
      var j := IncludesHasPosition(s[1..], q);
      assert s[1..][j..j + |q|] == s[j + 1..j + 1 + |q|];
      k := j + 1;
    }
  }

  /** Every string includes the empty string and itself. */
  lemma IncludesTrivial(s: string)
    ensures Includes(s, "")
    ensures Includes(s, s)
  {
    assert StartsWith(s, s);
  }

  /**
   * `s.split(c)[0]`: the part of s before the first c, or all of s when c
   * does not occur.
   */
  function BeforeFirst(s: string, c: char): (r: string)
    ensures |r| <= |s| && r == s[..|r|]
    ensures c !in r
    ensures |r| < |s| ==> s[|r|] == c
    ensures c !in s ==> r == s
    decreases |s|
  {
    if |s| == 0 || s[0] == c then "" else [s[0]] + BeforeFirst(s[1..], c)
  }
}
