/**
 * The two regular expressions of the booking form's validator, each given
 * twice: as a declarative description of the strings it accepts, and as an
 * executable left-to-right scan, with a proof that the two agree.
 *
 *   email: /\S+@\S+\.\S+/       unanchored, applied to the raw input
 *   phone: /^[\d\s\-\+\(\)]+$/  anchored at both ends
 */
module Patterns {
  import opened JsText

  // ---------------------------------------------------------------------
  // Email
  // ---------------------------------------------------------------------

  /** An occurrence of `\S+@\S+\.\S+` in `s` with its '@' at `p` and the
      escaped '.' at `q`. Because the pattern is unanchored, one non-space
      character on each side of the outer `\S+` is all the match needs. */
  ghost predicate EmailAt(s: string, p: int, q: int) {
    && 1 <= p
    && p + 1 < q
    && q + 1 < |s|
    && !IsSpace(s[p - 1])
    && s[p] == '@'
    && (forall k :: p < k < q ==> !IsSpace(s[k]))
    && s[q] == '.'
    && !IsSpace(s[q + 1])
  }

  /** `s` contains a match of the email pattern somewhere. */
  ghost predicate EmailLike(s: string) {
    exists p, q :: EmailAt(s, p, q)
  }

  /** What a scan of a prefix has seen so far; each flag says which part of
      the pattern can end at the last character read.
        local   - the `\S+` before the '@'
        at      - the '@'
        domain  - the `\S+` between '@' and '.'
        dot     - the '.'
        matched - a whole match ended somewhere in the prefix */
  datatype EmailScan = EmailScan(local: bool, at: bool, domain: bool, dot: bool, matched: bool)

  const ScanStart := EmailScan(false, false, false, false, false)

  /** Advances a scan by one character. */
  function ScanStep(st: EmailScan, c: char): EmailScan {
    var solid := !IsSpace(c);
    EmailScan(
      local := solid,
      at := st.local && c == '@',
      domain := (st.at || st.domain) && solid,
      dot := st.domain && c == '.',
      matched := st.matched || (st.dot && solid))
  }

  /** The scan state after reading all of `s`. */
  function Scan(s: string): EmailScan
    decreases |s|
  {
    if |s| == 0 then ScanStart else ScanStep(Scan(s[..|s| - 1]), s[|s| - 1])
  }

  /** `t` ends inside the `\S+` that follows an '@' at `p`, with a non-space before it. */
  ghost predicate DomainFrom(t: string, p: int) {
    && 1 <= p
    && p + 1 < |t|
    && !IsSpace(t[p - 1])
    && t[p] == '@'
    && (forall k :: p < k < |t| ==> !IsSpace(t[k]))
  }

  ghost predicate InDomain(t: string) {
    exists p :: DomainFrom(t, p)
  }

  /** `t` ends with the '.' that closes a domain part. */
  ghost predicate AfterDot(t: string) {
    |t| >= 1 && t[|t| - 1] == '.' && InDomain(t[..|t| - 1])
  }

  lemma DomainStep(u: string, c: char)
    ensures InDomain(u + [c]) <==>
              !IsSpace(c) && ((|u| >= 2 && u[|u| - 1] == '@' && !IsSpace(u[|u| - 2])) || InDomain(u))
  {
    var t := u + [c];
    assert forall k :: 0 <= k < |u| ==> t[k] == u[k];
    if InDomain(t) {
      var p :| DomainFrom(t, p);
      assert !IsSpace(t[|t| - 1]);
      if p + 1 < |u| {
        assert DomainFrom(u, p);
      }
    }
    if !IsSpace(c) {
      if |u| >= 2 && u[|u| - 1] == '@' && !IsSpace(u[|u| - 2]) {
        assert DomainFrom(t, |u| - 1);
      }
      if InDomain(u) {
        var p :| DomainFrom(u, p);
        assert DomainFrom(t, p);
      }
    }
  }

  lemma MatchStep(u: string, c: char)
    ensures EmailLike(u + [c]) <==> EmailLike(u) || (AfterDot(u) && !IsSpace(c))
  {
    var t := u + [c];
    assert forall k :: 0 <= k < |u| ==> t[k] == u[k];
    if EmailLike(t) {
      var p, q :| EmailAt(t, p, q);
      if q + 1 < |u| {
        assert EmailAt(u, p, q);
      } else {
        assert q == |u| - 1;
        assert forall k :: 0 <= k < q ==> u[..q][k] == t[k];
        assert DomainFrom(u[..q], p);
      }
    }
    if EmailLike(u) {
      var p, q :| EmailAt(u, p, q);
      assert EmailAt(t, p, q);
    }
    if AfterDot(u) && !IsSpace(c) {
      var p :| DomainFrom(u[..|u| - 1], p);
      assert EmailAt(t, p, |u| - 1);
    }
  }

  /** Each flag of `Scan(t)` means exactly what its name says of the prefix `t`. */
  lemma {:induction false} ScanTracksPrefix(t: string)
    ensures Scan(t).local <==> |t| > 0 && !IsSpace(t[|t| - 1])
    ensures Scan(t).at <==> |t| >= 2 && t[|t| - 1] == '@' && !IsSpace(t[|t| - 2])
    ensures Scan(t).domain <==> InDomain(t)
    ensures Scan(t).dot <==> AfterDot(t)
    ensures Scan(t).matched <==> EmailLike(t)
    decreases |t|
  {
    if |t| > 0 {
      var u := t[..|t| - 1];
      var c := t[|t| - 1];
      assert t == u + [c];
      ScanTracksPrefix(u);
      DomainStep(u, c);
      MatchStep(u, c);
    }
  }

  /** The regex test `/\S+@\S+\.\S+/.test(s)`: one left-to-right pass of the scan. */
  method TestEmail(s: string) returns (matched: bool)
    ensures matched <==> EmailLike(s)
  {
    var st := ScanStart;
    var i := 0;
    while i < |s|
      invariant 0 <= i <= |s|
      invariant st == Scan(s[..i])
    {
      assert s[..i + 1][..i] == s[..i];
      st := ScanStep(st, s[i]);
      i := i + 1;
    }
    assert s[..i] == s;
    ScanTracksPrefix(s);
    matched := st.matched;
  }

  // ---------------------------------------------------------------------
  // Phone
  // ---------------------------------------------------------------------

  /** The character class `[\d\s\-\+\(\)]`; `\d` is ASCII 0-9 only. */
  predicate IsPhoneChar(c: char) {
    ('0' <= c <= '9') || IsSpace(c) || c == '-' || c == '+' || c == '(' || c == ')'
  }

  /** `s` is a whole match of `^[\d\s\-\+\(\)]+$`: non-empty, and no
      character outside the class. */
  ghost predicate PhoneChars(s: string) {
    |s| > 0 && forall i :: 0 <= i < |s| ==> IsPhoneChar(s[i])
  }

  /** The regex test `/^[\d\s\-\+\(\)]+$/.test(s)`: a non-empty string whose
      characters are checked left to right, stopping at the first outside the class. */
  method TestPhone(s: string) returns (matched: bool)
    ensures matched <==> PhoneChars(s)
  {
    if |s| == 0 {
      return false;
    }
    var i := 0;
    while i < |s|
      invariant 0 <= i <= |s|
      invariant forall j :: 0 <= j < i ==> IsPhoneChar(s[j])
    {
      if !IsPhoneChar(s[i]) {
        return false;
      }
      i := i + 1;
    }
    return true;
  }
}
