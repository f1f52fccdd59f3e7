/** The string operations of JavaScript that the forms and pages use:
    `trim`, `toLowerCase` on the ASCII range, `includes`, `join`, `split`
    on a one-character separator, and decimal rendering of a number. */
module Text {

  /** The characters matched by `\s` in a JavaScript regular expression, which
      are also the ones `String.prototype.trim` removes (ECMAScript WhiteSpace
      and LineTerminator). */
  predicate IsSpace(c: char) {
    c == '\t' || c == '\n' || c == '\U{000B}' || c == '\U{000C}' || c == '\r' || c == ' ' ||
    c == '\U{00A0}' || c == '\U{1680}' || ('\U{2000}' <= c <= '\U{200A}') ||
    c == '\U{2028}' || c == '\U{2029}' || c == '\U{202F}' || c == '\U{205F}' ||
    c == '\U{3000}' || c == '\U{FEFF}'
  }

  predicate IsDigit(c: char) {
    '0' <= c <= '9'
  }

  predicate NoSpace(s: string) {
    forall i :: 0 <= i < |s| ==> !IsSpace(s[i])
  }

  predicate AllSpace(s: string) {
    forall i :: 0 <= i < |s| ==> IsSpace(s[i])
  }

  /** `s` is `r` with the white space `left` before it and `right` after it. */
  predicate Padded(s: string, r: string, left: string, right: string) {
    s == left + r + right && AllSpace(left) && AllSpace(right)
  }

  /** `trim`: `s` without its leading and trailing white space, removed one
      character at a time from either end. */
  function Trim(s: string): (r: string)
    ensures |r| <= |s|
    decreases |s|
  {
    if s != [] && IsSpace(s[0]) then Trim(s[1..])
    else if s != [] && IsSpace(s[|s| - 1]) then Trim(s[..|s| - 1])
    else s
  }

  /** The trimmed string neither starts nor ends with white space. */
  lemma {:induction false} TrimEnds(s: string)
    ensures var r := Trim(s); r == [] || (!IsSpace(r[0]) && !IsSpace(r[|r| - 1]))
    decreases |s|
  {
    if s != [] && IsSpace(s[0]) {
      TrimEnds(s[1..]);
    } else if s != [] && IsSpace(s[|s| - 1]) {
      TrimEnds(s[..|s| - 1]);
    }
  }

  /** One more white-space character in front keeps a padding. */
  lemma PaddedCons(c: char, u: string, r: string, left: string, right: string)
    requires IsSpace(c) && Padded(u, r, left, right)
    ensures Padded([c] + u, r, [c] + left, right)
  {
    assert [c] + u == ([c] + left) + r + right;
    assert forall i :: 1 <= i < |[c] + left| ==> ([c] + left)[i] == left[i - 1];
  }

  /** One more white-space character behind keeps a padding. */
  lemma PaddedSnoc(t: string, c: char, r: string, left: string, right: string)
    requires IsSpace(c) && Padded(t, r, left, right)
    ensures Padded(t + [c], r, left, right + [c])
  {
    assert t + [c] == left + r + (right + [c]);
    assert forall i :: 0 <= i < |right| ==> (right + [c])[i] == right[i];
  }

  /** Only white space is cut away, on both sides. */
  lemma {:induction false} TrimPadded(s: string)
    ensures exists left, right :: Padded(s, Trim(s), left, right)
    decreases |s|
  {
    var r := Trim(s);
    if s != [] && IsSpace(s[0]) {
      var u := s[1..];
      TrimPadded(u);
      var left, right :| Padded(u, r, left, right);
      PaddedCons(s[0], u, r, left, right);
      assert s == [s[0]] + u;
    } else if s != [] && IsSpace(s[|s| - 1]) {
      var t := s[..|s| - 1];
      TrimPadded(t);
      var left, right :| Padded(t, r, left, right);
      PaddedSnoc(t, s[|s| - 1], r, left, right);
      assert s == t + [s[|s| - 1]];
    } else {
      assert Padded(s, r, [], []);
    }
  }

  /** A string without white space at either end is its own trim. */
  lemma TrimOfTrimmed(s: string)
    requires s == [] || (!IsSpace(s[0]) && !IsSpace(s[|s| - 1]))
    ensures Trim(s) == s
  {
  }

  lemma TrimIdempotent(s: string)
    ensures Trim(Trim(s)) == Trim(s)
  {
    TrimEnds(s);
    TrimOfTrimmed(Trim(s));
  }

  /** A string with no white space at all is left alone by `trim`. */
  lemma TrimNoSpace(s: string)
    requires NoSpace(s)
    ensures Trim(s) == s
  {
    TrimOfTrimmed(s);
  }

  /** `trim` empties exactly the strings made only of white space. */
  lemma {:induction false} TrimEmptyIff(s: string)
    ensures Trim(s) == [] <==> AllSpace(s)
    decreases |s|
  {
    if s != [] && IsSpace(s[0]) {
      TrimEmptyIff(s[1..]);
      assert AllSpace(s) <==> AllSpace(s[1..]) by {
        if AllSpace(s[1..]) {
          assert forall i :: 1 <= i < |s| ==> s[i] == s[1..][i - 1];
        }
      }
    } else if s != [] && IsSpace(s[|s| - 1]) {
      TrimEmptyIff(s[..|s| - 1]);
      assert !AllSpace(s);
      assert !AllSpace(s[..|s| - 1]) by { assert s[..|s| - 1][0] == s[0]; }
    }
  }

  /** The UTF-16 code units of one character: two, a surrogate pair, for a
      character outside the Basic Multilingual Plane, one otherwise. */
  function CodeUnits(c: char): nat {
    if c as int >= 0x1_0000 then 2 else 1
  }

  /** `s.length`: JavaScript counts UTF-16 code units, not characters. */
  function Utf16Length(s: string): (n: nat)
    ensures |s| <= n <= 2 * |s|
    decreases |s|
  {
    if s == [] then 0 else CodeUnits(s[0]) + Utf16Length(s[1..])
  }

  /** Inside the Basic Multilingual Plane the count is the number of characters. */
  lemma {:induction false} Utf16LengthBmp(s: string)
    requires forall i :: 0 <= i < |s| ==> s[i] as int < 0x1_0000
    ensures Utf16Length(s) == |s|
    decreases |s|
  {
    if s != [] {
      assert forall i :: 0 <= i < |s[1..]| ==> s[1..][i] == s[i + 1];
      Utf16LengthBmp(s[1..]);
    }
  }

  /** The count of a concatenation is the sum of the counts. */
  lemma {:induction false} Utf16LengthAppend(a: string, b: string)
    ensures Utf16Length(a + b) == Utf16Length(a) + Utf16Length(b)
    decreases |a|
  {
    if a != [] {
      assert (a + b)[0] == a[0] && (a + b)[1..] == a[1..] + b;
      Utf16LengthAppend(a[1..], b);
    } else {
      assert a + b == b;
    }
  }

  /** One character outside the Basic Multilingual Plane counts as two. */
  lemma AstralCountsTwice(c: char)
    requires c as int >= 0x1_0000
    ensures Utf16Length([c]) == 2 && |[c]| == 1
  {
    assert [c][1..] == [];
  }

  function LowerChar(c: char): (r: char)
    ensures 'A' <= c <= 'Z' ==> r as int == c as int + 32
    ensures !('A' <= c <= 'Z') ==> r == c
  {
    if 'A' <= c <= 'Z' then (c as int + 32) as char else c
  }

  /** `toLowerCase`, restricted to the ASCII letters. */
  function Lower(s: string): (r: string)
    ensures |r| == |s|
    ensures forall i :: 0 <= i < |s| ==> r[i] == LowerChar(s[i])
  {
    seq(|s|, i requires 0 <= i < |s| => LowerChar(s[i]))
  }

  predicate IsPrefix(p: string, s: string) {
    |p| <= |s| && s[..|p|] == p
  }

  /** `s.includes(needle)`, decided by scanning `s` from the left. */
  predicate Contains(s: string, needle: string)
    decreases |s|
  {
    IsPrefix(needle, s) || (s != [] && Contains(s[1..], needle))
  }

  /** `needle` occurs in `s` starting at index `i`. */
  predicate OccursAt(s: string, needle: string, i: int) {
    0 <= i && i + |needle| <= |s| && s[i..i + |needle|] == needle
  }

  /** `includes` holds exactly when `needle` occurs at some index of `s`. */
  lemma {:induction false} ContainsIff(s: string, needle: string)
    ensures Contains(s, needle) <==> exists i :: OccursAt(s, needle, i)
    decreases |s|
  {
    if s == [] {
      if Contains(s, needle) {
        assert OccursAt(s, needle, 0);
      }
    } else {
      ContainsIff(s[1..], needle);
      if Contains(s, needle) {
        if IsPrefix(needle, s) {
          assert OccursAt(s, needle, 0);
        } else {
          var i :| OccursAt(s[1..], needle, i);
          assert s[i + 1..i + 1 + |needle|] == s[1..][i..i + |needle|];
          assert OccursAt(s, needle, i + 1);
        }
      }
      if exists i :: OccursAt(s, needle, i) {
        var i :| OccursAt(s, needle, i);
        if i > 0 {
          assert s[i..i + |needle|] == s[1..][i - 1..i - 1 + |needle|];
          assert OccursAt(s[1..], needle, i - 1);
        }
      }
    }
  }

  /** Every string includes itself, and the empty string is included in every string. */
  lemma ContainsSelf(s: string, t: string)
    ensures Contains(s, s)
    ensures Contains(t, "")
  {
    assert IsPrefix(s, s);
    assert IsPrefix("", t);
  }

  /** `s || fallback` on a string. */
  function OrElse(s: string, fallback: string): string {
    if s != "" then s else fallback
  }

  /** `parts.join(sep)`. */
  function Join(parts: seq<string>, sep: string): string
    decreases |parts|
  {
    if |parts| == 0 then ""
    else if |parts| == 1 then parts[0]
    else parts[0] + sep + Join(parts[1..], sep)
  }

  /** `parts.filter(Boolean)` on strings: drops the empty ones, keeping the order. */
  function NonEmpty(parts: seq<string>): (r: seq<string>)
    ensures |r| <= |parts|
    ensures forall i :: 0 <= i < |r| ==> r[i] != ""
    ensures forall i :: 0 <= i < |parts| && parts[i] != "" ==> parts[i] in r
    ensures forall x :: x in r ==> x in parts
    ensures forall x :: multiset(r)[x] == if x == "" then 0 else multiset(parts)[x]
    ensures Subsequence(r, parts)
    decreases |parts|
  {
    if parts == [] then []
    else
      assert parts == [parts[0]] + parts[1..];
      if parts[0] == "" then NonEmpty(parts[1..])
      else [parts[0]] + NonEmpty(parts[1..])
  }

  /** Filtering keeps order across a split: the front's kept elements come
      before the back's. */
  lemma {:induction false} NonEmptyAppend(a: seq<string>, b: seq<string>)
    ensures NonEmpty(a + b) == NonEmpty(a) + NonEmpty(b)
    decreases |a|
  {
    if a != [] {
      var ab := a + b;
      assert ab[0] == a[0] && ab[1..] == a[1..] + b;
      NonEmptyAppend(a[1..], b);
      if a[0] == "" {
        assert NonEmpty(ab) == NonEmpty(ab[1..]);
        assert NonEmpty(a) == NonEmpty(a[1..]);
      } else {
        assert NonEmpty(ab) == [a[0]] + NonEmpty(ab[1..]);
        assert NonEmpty(a) == [a[0]] + NonEmpty(a[1..]);
      }
    } else {
      assert a + b == b;
    }
  }

  /** `a` is `b` with some elements left out, the rest in their order. */
  predicate Subsequence<T(==)>(a: seq<T>, b: seq<T>)
    decreases |b|
  {
    if a == [] then true
    else if b == [] then false
    else (a[0] == b[0] && Subsequence(a[1..], b[1..])) || Subsequence(a, b[1..])
  }

  lemma {:induction false} SubsequenceRefl<T>(s: seq<T>)
    ensures Subsequence(s, s)
    decreases |s|
  {
    if s != [] {
      SubsequenceRefl(s[1..]);
    }
  }

  /** Only empty strings filter to nothing. */
  lemma {:induction false} NonEmptyOfBlanks(parts: seq<string>)
    requires forall i :: 0 <= i < |parts| ==> parts[i] == ""
    ensures NonEmpty(parts) == []
    decreases |parts|
  {
    if parts != [] {
      NonEmptyOfBlanks(parts[1..]);
    }
  }

  /** The index of the first `c` in `s`, when there is one. */
  function IndexOf(s: string, c: char): (r: nat)
    requires c in s
    ensures r < |s| && s[r] == c && c !in s[..r]
    decreases |s|
  {
    if s[0] == c then 0 else 1 + IndexOf(s[1..], c)
  }

  /** `s.split(sep)` for a one-character separator: the pieces between the
      separators, in order, one more than there are separators (so the empty
      string splits into one empty piece). */
  function Split(s: string, sep: char): (r: seq<string>)
    ensures |r| >= 1
    ensures forall i :: 0 <= i < |r| ==> sep !in r[i]
    ensures Join(r, [sep]) == s
    decreases |s|
  {
    if sep !in s then [s]
    else
      var i := IndexOf(s, sep);
      var rest := Split(s[i + 1..], sep);
      assert s == s[..i] + [sep] + s[i + 1..];
      [s[..i]] + rest
  }

  /** `trim` applied to each element, as `map(s => s.trim())`. */
  function TrimAll(parts: seq<string>): (r: seq<string>)
    ensures |r| == |parts|
    ensures forall i :: 0 <= i < |parts| ==> r[i] == Trim(parts[i])
  {
    seq(|parts|, i requires 0 <= i < |parts| => Trim(parts[i]))
  }

  function DigitChar(d: nat): (c: char)
    requires d < 10
    ensures IsDigit(c) && c as int - '0' as int == d
  {
    ('0' as int + d) as char
  }

  /** The decimal rendering of a non-negative integer, as in a template literal. */
  function NatToString(n: nat): (r: string)
    ensures r != []
    ensures forall i :: 0 <= i < |r| ==> IsDigit(r[i])
    ensures n > 0 ==> r[0] != '0'
    decreases n
  {
    if n < 10 then [DigitChar(n)] else NatToString(n / 10) + [DigitChar(n % 10)]
  }

  predicate IsDigits(s: string) {
    s != [] && forall i :: 0 <= i < |s| ==> IsDigit(s[i])
  }

  /** `Number(s)` for a string made of decimal digits. */
  function DecimalValue(s: string): nat
    requires forall i :: 0 <= i < |s| ==> IsDigit(s[i])
    decreases |s|
  {
    if s == [] then 0
    else
      var last := s[|s| - 1];
      assert IsDigit(last);
      10 * DecimalValue(s[..|s| - 1]) + (last as int - '0' as int)
  }

  /** Reading back the decimal rendering of `n` gives `n`. */
  lemma {:induction false} DecimalOfNatToString(n: nat)
    ensures DecimalValue(NatToString(n)) == n
    decreases n
  {
    if n >= 10 {
      DecimalOfNatToString(n / 10);
      var r := NatToString(n);
      assert r[..|r| - 1] == NatToString(n / 10);
    }
  }
}
