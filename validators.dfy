/** The regular expressions and length checks the forms validate with. */
module Validators {
  import opened Text

  predicate PhoneChar(c: char) {
    IsDigit(c) || IsSpace(c) || c == '-'
  }

  predicate PhoneBody(t: string) {
    7 <= |t| <= 15 && forall i :: 0 <= i < |t| ==> PhoneChar(t[i])
  }

  /** `/^\+?[0-9\s-]{7,15}$/.test(s)`: an optional plus sign, then seven to
      fifteen digits, white-space characters or hyphens, and nothing else. */
  predicate IsPhone(s: string) {
    PhoneBody(s) || (|s| > 0 && s[0] == '+' && PhoneBody(s[1..]))
  }

  predicate EmailChar(c: char) {
    !IsSpace(c) && c != '@'
  }

  /** A match of `[^\s@]+`. */
  predicate EmailRun(t: string) {
    |t| > 0 && forall i :: 0 <= i < |t| ==> EmailChar(t[i])
  }

  /** `s` read as `[^\s@]+` `@` `[^\s@]+` `.` `[^\s@]+` with the `@` at `i` and the `.` at `j`. */
  predicate EmailSplit(s: string, i: int, j: int) {
    0 <= i < j < |s| && s[i] == '@' && s[j] == '.' &&
    EmailRun(s[..i]) && EmailRun(s[i + 1..j]) && EmailRun(s[j + 1..])
  }

  /** `/^[^\s@]+@[^\s@]+\.[^\s@]+$/.test(s)`: the whole of `s` is an address. */
  predicate IsEmail(s: string) {
    exists i, j | 0 <= i < j < |s| :: EmailSplit(s, i, j)
  }

  /** `/[^\s@]+@[^\s@]+\.[^\s@]+/.test(s)`, with no anchors: some part of `s`
      is an address, whatever surrounds it. */
  predicate ContainsEmail(s: string) {
    exists p, q :: 0 <= p <= q <= |s| && IsEmail(s[p..q])
  }

  /** `/^[0-9]+$/.test(s)`. */
  predicate IsNumeric(s: string) {
    IsDigits(s)
  }

  /** `s.trim().length >= n`, the length counted in UTF-16 code units. */
  predicate TrimmedAtLeast(s: string, n: nat) {
    Utf16Length(Trim(s)) >= n
  }

  /** A single character outside the Basic Multilingual Plane, such as an
      emoji, already meets a two-unit minimum. */
  lemma AstralNameLongEnough(c: char)
    requires c as int >= 0x1_0000 && !IsSpace(c)
    ensures TrimmedAtLeast([c], 2) && |[c]| == 1
  {
    TrimNoSpace([c]);
    AstralCountsTwice(c);
  }

  /** An address has no white space anywhere: each character is in one of the
      three runs or is the `@` or the `.` between them. */
  lemma EmailNoSpace(s: string)
    ensures IsEmail(s) ==> NoSpace(s)
  {
    if IsEmail(s) {
      EmailNoSpaceAt(s);
    }
  }

  lemma EmailNoSpaceAt(s: string)
    requires IsEmail(s)
    ensures NoSpace(s)
  {
    var i, j :| 0 <= i < j < |s| && EmailSplit(s, i, j);
    forall k | 0 <= k < |s| ensures !IsSpace(s[k]) {
      if k < i {
        assert s[k] == s[..i][k];
      } else if i < k < j {
        assert s[k] == s[i + 1..j][k - i - 1];
      } else if j < k {
        assert s[k] == s[j + 1..][k - j - 1];
      }
    }
  }

  /** So trimming a valid address leaves it as it is. */
  lemma EmailTrimmed(s: string)
    requires IsEmail(s)
    ensures Trim(s) == s
  {
    EmailNoSpace(s);
    TrimNoSpace(s);
  }

  /** The unanchored pattern accepts everything the anchored one does. */
  lemma EmailContained(s: string)
    requires IsEmail(s)
    ensures ContainsEmail(s)
  {
    assert s[0..|s|] == s;
  }

  /** ... but not conversely: an address with a leading space passes the
      unanchored test and fails the anchored one. */
  lemma PaddedAddress()
    ensures ContainsEmail(" a@b.c") && !IsEmail(" a@b.c")
  {
    var s := " a@b.c";
    var t := "a@b.c";
    assert s[1..6] == t;
    assert t[..1] == "a" && t[2..3] == "b" && t[4..] == "c";
    assert EmailSplit(t, 1, 3);
    EmailNoSpace(s);
    assert IsSpace(s[0]);
  }

  /** The phone pattern accepts a number with no digit in it: seven spaces pass,
      though the value trims to nothing. */
  lemma BlankPhone()
    ensures IsPhone("       ") && Trim("       ") == ""
  {
    var s := "       ";
    assert PhoneBody(s);
    TrimEmptyIff(s);
  }
}
