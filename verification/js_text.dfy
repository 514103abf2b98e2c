/**
 * The whitespace notion the booking form relies on.
 *
 * ECMAScript uses one set of code points both for `String.prototype.trim`
 * and for the regular-expression classes `\s` / `\S`: the WhiteSpace and
 * LineTerminator productions of the language grammar. This module fixes
 * that set explicitly and defines `Trim` and the blank test the form's
 * required-field checks are built from.
 */
module JsText {

  /** True of the code points ECMAScript classes as WhiteSpace or LineTerminator:
      TAB, LF, VT, FF, CR, SPACE, NO-BREAK SPACE, OGHAM SPACE MARK, EN QUAD ..
      HAIR SPACE, LINE SEPARATOR, PARAGRAPH SEPARATOR, NARROW NO-BREAK SPACE,
      MEDIUM MATHEMATICAL SPACE, IDEOGRAPHIC SPACE and ZERO WIDTH NO-BREAK SPACE. */
  predicate IsSpace(c: char) {
    var n := c as int;
    || (0x09 <= n <= 0x0D)
    || n == 0x20
    || n == 0xA0
    || n == 0x1680
    || (0x2000 <= n <= 0x200A)
    || n == 0x2028
    || n == 0x2029
    || n == 0x202F
    || n == 0x205F
    || n == 0x3000
    || n == 0xFEFF
  }

  /** Where the ECMAScript set differs from other common notions of
      whitespace: NO-BREAK SPACE and ZERO WIDTH NO-BREAK SPACE belong to it,
      while NEXT LINE (U+0085), ZERO WIDTH SPACE (U+200B) and the
      MONGOLIAN VOWEL SEPARATOR (U+180E) do not. */
  lemma WhitespaceSetEdges()
    ensures IsSpace(' ') && IsSpace('\t') && IsSpace('\n') && IsSpace('\r')
    ensures IsSpace('\U{0B}') && IsSpace('\U{0C}')
    ensures IsSpace('\U{A0}') && IsSpace('\U{FEFF}') && IsSpace('\U{2028}') && IsSpace('\U{3000}')
    ensures !IsSpace('\U{85}') && !IsSpace('\U{200B}') && !IsSpace('\U{180E}')
    ensures !IsSpace('a') && !IsSpace('@') && !IsSpace('.') && !IsSpace('0')
  {
  }

  /** Every character of `s` is whitespace (vacuously true of ""). */
  ghost predicate AllSpace(s: string) {
    forall i :: 0 <= i < |s| ==> IsSpace(s[i])
  }

  /** Drops the leading whitespace of `s`: the result is the suffix of `s`
      that starts at its first non-whitespace character. */
  function TrimStart(s: string): (r: string)
    ensures |r| <= |s| && r == s[|s| - |r|..]
    ensures forall i :: 0 <= i < |s| - |r| ==> IsSpace(s[i])
    ensures |r| > 0 ==> !IsSpace(r[0])
    decreases |s|
  {
    if |s| > 0 && IsSpace(s[0]) then TrimStart(s[1..]) else s
  }

  /** Drops the trailing whitespace of `s`: the result is the prefix of `s`
      that ends at its last non-whitespace character. */
  function TrimEnd(s: string): (r: string)
    ensures |r| <= |s| && r == s[..|r|]
    ensures forall i :: |r| <= i < |s| ==> IsSpace(s[i])
    ensures |r| > 0 ==> !IsSpace(r[|r| - 1])
    decreases |s|
  {
    if |s| > 0 && IsSpace(s[|s| - 1]) then TrimEnd(s[..|s| - 1]) else s
  }

  /** `r` is the infix of `s` starting at `i`, and everything of `s` outside it is whitespace. */
  ghost predicate TrimmedAt(s: string, r: string, i: int) {
    && 0 <= i
    && i + |r| <= |s|
    && r == s[i..i + |r|]
    && (forall k :: 0 <= k < i ==> IsSpace(s[k]))
    && (forall k :: i + |r| <= k < |s| ==> IsSpace(s[k]))
  }

  /** `String.prototype.trim`: the infix of `s` left once whitespace is removed
      from both ends. It neither starts nor ends with whitespace, which makes it
      the only infix with that property surrounded by whitespace alone. */
  function Trim(s: string): (r: string)
    ensures exists i :: TrimmedAt(s, r, i)
    ensures |r| > 0 ==> !IsSpace(r[0]) && !IsSpace(r[|r| - 1])
  {
    var t := TrimStart(s);
    var r := TrimEnd(t);
    assert TrimmedAt(s, r, |s| - |t|);
    r
  }

  /** Two positions holding non-whitespace with only whitespace before them are the same position. */
  lemma FirstSolidUnique(s: string, i: int, j: int)
    requires 0 <= i < |s| && 0 <= j < |s| && !IsSpace(s[i]) && !IsSpace(s[j])
    requires forall k :: 0 <= k < i ==> IsSpace(s[k])
    requires forall k :: 0 <= k < j ==> IsSpace(s[k])
    ensures i == j
  {
  }

  /** Two positions holding non-whitespace with only whitespace after them are the same position. */
  lemma LastSolidUnique(s: string, i: int, j: int)
    requires 0 <= i < |s| && 0 <= j < |s| && !IsSpace(s[i]) && !IsSpace(s[j])
    requires forall k :: i < k < |s| ==> IsSpace(s[k])
    requires forall k :: j < k < |s| ==> IsSpace(s[k])
    ensures i == j
  {
  }

  /** `Trim` is characterised by its contract: any infix of `s` surrounded by
      whitespace alone that neither starts nor ends with whitespace is `Trim(s)`. */
  lemma TrimUnique(s: string, r: string, i: int)
    requires TrimmedAt(s, r, i)
    requires |r| > 0 ==> !IsSpace(r[0]) && !IsSpace(r[|r| - 1])
    ensures r == Trim(s)
  {
    var t := Trim(s);
    var j :| TrimmedAt(s, t, j);
    if |r| > 0 && |t| > 0 {
      assert s[i] == r[0] && s[j] == t[0];
      FirstSolidUnique(s, i, j);
      assert s[i + |r| - 1] == r[|r| - 1] && s[j + |t| - 1] == t[|t| - 1];
      LastSolidUnique(s, i + |r| - 1, j + |t| - 1);
    } else if |r| > 0 || |t| > 0 {
      assert false;
    }
  }

  /** JavaScript's `!s.trim()`: the trimmed string is the falsy empty string.
      That happens exactly when `s` consists of whitespace only. */
  method IsBlank(s: string) returns (blank: bool)
    ensures blank <==> AllSpace(s)
  {
    var trimmed := Trim(s);
    blank := |trimmed| == 0;
  }
}
