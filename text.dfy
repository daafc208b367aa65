/**
 * The JavaScript string operations the pages use, on `string` = `seq<char>`:
 * `startsWith`, `includes`, `split(",")`, `trim()`, `replace(c, s)` with a
 * one-character pattern, `padStart`, and decimal digits for `String(n)` and
 * `parseInt(s, 10)` on a string of digits.
 */
module Text {

  /** `s.startsWith(prefix)`. */
  predicate StartsWith(s: string, prefix: string) {
    |prefix| <= |s| && s[..|prefix|] == prefix
  }

  /** `s.includes(t)`: `t` occurs in `s` as a contiguous piece. */
  predicate Contains(s: string, t: string)
    decreases |s|
  {
    StartsWith(s, t) || (s != [] && Contains(s[1..], t))
  }

  /** `Contains` means there is a position where `t` starts in `s`; the empty string is in every string. */
  lemma {:induction false} ContainsAt(s: string, t: string)
    ensures Contains(s, t) <==> exists i :: 0 <= i <= |s| - |t| && StartsWith(s[i..], t)
    decreases |s|
  {
    if s != [] {
      ContainsAt(s[1..], t);
      if Contains(s[1..], t) {
        var i :| 0 <= i <= |s[1..]| - |t| && StartsWith(s[1..][i..], t);
        assert s[1..][i..] == s[i + 1..];
      }
      forall i | 1 <= i <= |s| - |t| && StartsWith(s[i..], t)
        ensures Contains(s[1..], t)
      {
        assert s[1..][i - 1..] == s[i..];
      }
    }
    assert s[0..] == s;
  }

  /** `str.slice(0, n)`: at most the first `n` characters. */
  function Prefix(s: string, n: nat): (r: string)
    ensures |r| == if |s| < n then |s| else n
    ensures StartsWith(s, r)
  {
    if |s| <= n then s else s[..n]
  }

  /** `s.split(sep)`: the pieces between separators; `""` splits into `[""]`. */
  function Split(s: string, sep: char): (parts: seq<string>)
    ensures |parts| >= 1
    ensures forall part :: part in parts ==> sep !in part
    ensures forall part, c :: part in parts && c in part ==> c in s
  {
    if s == [] then [[]]
    else
      var rest := Split(s[1..], sep);
      if s[0] == sep then [[]] + rest
      else [[s[0]] + rest[0]] + rest[1..]
  }

  /** A string of separators only splits into empty pieces. */
  lemma {:induction false} SplitOnlySeparators(s: string, sep: char)
    requires forall i :: 0 <= i < |s| ==> s[i] == sep
    ensures forall part :: part in Split(s, sep) ==> part == []
  {
    if s != [] {
      SplitOnlySeparators(s[1..], sep);
    }
  }

  /** `parts.join(sep)`. */
  function Join(parts: seq<string>, sep: string): string
  {
    if parts == [] then []
    else if |parts| == 1 then parts[0]
    else parts[0] + sep + Join(parts[1..], sep)
  }

  /** Splitting and joining back with the same separator gives the original string. */
  lemma {:induction false} JoinSplit(s: string, sep: char)
    ensures Join(Split(s, sep), [sep]) == s
  {
    if s != [] {
      JoinSplit(s[1..], sep);
      var rest := Split(s[1..], sep);
      if s[0] == sep {
        assert ([[]] + rest)[1..] == rest;
      } else {
        var parts := [[s[0]] + rest[0]] + rest[1..];
        if |rest| == 1 {
          assert Join(rest, [sep]) == rest[0];
        } else {
          assert parts[1..] == rest[1..];
          assert Join(rest, [sep]) == rest[0] + [sep] + Join(rest[1..], [sep]);
        }
      }
    }
  }

  /**
   * The characters `String.prototype.trim` removes: ECMAScript WhiteSpace
   * (tab, vertical tab, form feed, space, no-break space, byte order mark and
   * the Unicode space separators, including the ideographic space U+3000) and
   * LineTerminator (line feed, carriage return, U+2028, U+2029).
   */
  predicate IsWhitespace(c: char) {
    c == '\t' || c == '\n' || c == '\U{000B}' || c == '\U{000C}' || c == '\r' || c == ' ' ||
    c == '\U{00A0}' || c == '\U{1680}' || ('\U{2000}' <= c <= '\U{200A}') ||
    c == '\U{2028}' || c == '\U{2029}' || c == '\U{202F}' || c == '\U{205F}' ||
    c == '\U{3000}' || c == '\U{FEFF}'
  }

  /** Drops leading whitespace. */
  function TrimStart(s: string): (r: string)
    ensures |r| <= |s| && r == s[|s| - |r|..]
    ensures r == [] || !IsWhitespace(r[0])
    ensures forall i :: 0 <= i < |s| - |r| ==> IsWhitespace(s[i])
  {
    if s != [] && IsWhitespace(s[0]) then TrimStart(s[1..]) else s
  }

  /** Drops trailing whitespace. */
  function TrimEnd(s: string): (r: string)
    ensures |r| <= |s| && r == s[..|r|]
    ensures r == [] || !IsWhitespace(r[|r| - 1])
    ensures forall i :: |r| <= i < |s| ==> IsWhitespace(s[i])
  {
    if s != [] && IsWhitespace(s[|s| - 1]) then TrimEnd(s[..|s| - 1]) else s
  }

  /** Every character of `w` is whitespace. */
  predicate AllWhitespace(w: string) {
    forall k :: 0 <= k < |w| ==> IsWhitespace(w[k])
  }

  /** A prefix `t` of a suffix `a` of `s` cuts `s` into three pieces. */
  lemma SuffixPrefixSplit<T>(s: seq<T>, a: seq<T>, t: seq<T>)
    requires |a| <= |s| && a == s[|s| - |a|..] && |t| <= |a| && t == a[..|t|]
    ensures s == s[..|s| - |a|] + t + a[|t|..]
  {
    assert s == s[..|s| - |a|] + a;
    assert a == t + a[|t|..];
  }

  /** `s.trim()`: the piece of `s` between its leading and its trailing whitespace. */
  function Trim(s: string): (t: string)
    ensures |t| <= |s|
    ensures t == [] || (!IsWhitespace(t[0]) && !IsWhitespace(t[|t| - 1]))
    ensures exists lead, trail :: s == lead + t + trail && AllWhitespace(lead) && AllWhitespace(trail)
  {
    var a := TrimStart(s);
    var t := TrimEnd(a);
    var lead, trail := s[..|s| - |a|], a[|t|..];
    SuffixPrefixSplit(s, a, t);
    assert AllWhitespace(lead) by {
      assert forall k :: 0 <= k < |lead| ==> lead[k] == s[k];
    }
    assert AllWhitespace(trail) by {
      assert forall k :: 0 <= k < |trail| ==> trail[k] == a[|t| + k];
    }
    assert s == lead + t + trail;
    t
  }

  /**
   * `s.trim()` is a contiguous piece of `s` that neither starts nor ends with
   * whitespace, and it is empty exactly when `s` consists of whitespace only.
   */
  lemma TrimShape(s: string)
    ensures Contains(s, Trim(s))
    ensures Trim(s) == [] || (!IsWhitespace(Trim(s)[0]) && !IsWhitespace(Trim(s)[|Trim(s)| - 1]))
    ensures Trim(s) == [] <==> forall i :: 0 <= i < |s| ==> IsWhitespace(s[i])
  {
    var a := TrimStart(s);
    var t := TrimEnd(a);
    assert s[|s| - |a|..] == a;
    assert StartsWith(s[|s| - |a|..], t);
    ContainsAt(s, t);
    assert t == [] || t[0] == a[0];
    TrimEmptyIff(s);
  }

  /** The trimmed string is empty exactly when every character is whitespace. */
  lemma TrimEmptyIff(s: string)
    ensures Trim(s) == [] <==> forall k :: 0 <= k < |s| ==> IsWhitespace(s[k])
  {
    var a := TrimStart(s);
    var i := |s| - |a|;
    assert forall k :: i <= k < |s| ==> s[k] == a[k - i];
    assert a == [] || a[0] == s[i];
  }

  /** Trimming a trimmed string changes nothing. */
  lemma TrimIdempotent(s: string)
    ensures Trim(Trim(s)) == Trim(s)
  {
    var t := Trim(s);
    TrimShape(s);
    assert TrimStart(t) == t;
    assert TrimEnd(t) == t;
  }

  /** `value || fallback` applied to `value.trim()`: the trimmed text, or `fallback` when that is empty. */
  function TrimOr(s: string, fallback: string): (r: string)
    ensures Trim(s) == [] ==> r == fallback
    ensures Trim(s) != [] ==> r == Trim(s)
  {
    var t := Trim(s);
    if t == [] then fallback else t
  }

  /** A string that neither starts nor ends with whitespace is its own trimmed value. */
  lemma TrimUnpadded(s: string)
    requires s != [] && !IsWhitespace(s[0]) && !IsWhitespace(s[|s| - 1])
    ensures Trim(s) == s
  {
    assert TrimStart(s) == s;
  }

  /**
   * Two ways of cutting one sequence into blank padding around a middle whose
   * ends are not blank have the same middle.
   */
  lemma SameMiddle<T>(blank: T -> bool, lead: seq<T>, mid: seq<T>, trail: seq<T>, l: seq<T>, t: seq<T>, r: seq<T>)
    requires lead + mid + trail == l + t + r
    requires forall k :: 0 <= k < |lead| ==> blank(lead[k])
    requires forall k :: 0 <= k < |trail| ==> blank(trail[k])
    requires forall k :: 0 <= k < |l| ==> blank(l[k])
    requires forall k :: 0 <= k < |r| ==> blank(r[k])
    requires mid != [] && !blank(mid[0]) && !blank(mid[|mid| - 1])
    requires t == [] || (!blank(t[0]) && !blank(t[|t| - 1]))
    ensures t == mid
  {
    var s := lead + mid + trail;
    var first, last := |lead|, |lead| + |mid| - 1;
    assert s[first] == mid[0] && s[last] == mid[|mid| - 1];
    assert forall k :: 0 <= k < |lead| ==> s[k] == lead[k];
    assert forall k :: 0 <= k < |trail| ==> s[|s| - |trail| + k] == trail[k];
    assert forall k :: 0 <= k < |l| ==> s[k] == l[k];
    assert forall k :: 0 <= k < |r| ==> s[|s| - |r| + k] == r[k];
    assert forall k :: 0 <= k < |t| ==> s[|l| + k] == t[k];
    assert t == s[first..last + 1] == mid;
  }

  /**
   * Trimming removes exactly the whitespace at the two ends: text that is
   * not blank, padded by whitespace on either side, trims to itself.
   */
  lemma TrimPadded(lead: string, mid: string, trail: string)
    requires AllWhitespace(lead) && AllWhitespace(trail)
    requires mid != [] && !IsWhitespace(mid[0]) && !IsWhitespace(mid[|mid| - 1])
    ensures Trim(lead + mid + trail) == mid
  {
    var s := lead + mid + trail;
    var t := Trim(s);
    var l, r :| s == l + t + r && AllWhitespace(l) && AllWhitespace(r);
    SameMiddle(IsWhitespace, lead, mid, trail, l, t, r);
  }

  /** With a fallback that is its own trimmed value and not empty, the result is non-empty and trimmed. */
  lemma TrimOrFilled(s: string, fallback: string)
    requires Trim(fallback) == fallback != []
    ensures TrimOr(s, fallback) != [] && Trim(TrimOr(s, fallback)) == TrimOr(s, fallback)
  {
    TrimIdempotent(s);
  }

  /** ASCII decimal digit, the complement of the regular-expression class `\D`. */
  predicate IsDigit(c: char) {
    '0' <= c <= '9'
  }

  predicate AllDigits(s: string) {
    forall i :: 0 <= i < |s| ==> IsDigit(s[i])
  }

  function DigitValue(c: char): (d: nat)
    requires IsDigit(c)
    ensures d < 10
  {
    c as int - '0' as int
  }

  function DigitChar(d: nat): (c: char)
    requires d < 10
    ensures IsDigit(c) && DigitValue(c) == d
  {
    ('0' as int + d) as char
  }

  /** `String(n)` for a natural number: its decimal digits, without leading zeros. */
  function NatToDecimal(n: nat): (s: string)
    ensures |s| >= 1 && AllDigits(s)
    ensures |s| > 1 ==> s[0] != '0'
  {
    if n < 10 then [DigitChar(n)] else NatToDecimal(n / 10) + [DigitChar(n % 10)]
  }

  /** The number a string of decimal digits denotes (`parseInt(s, 10)`; `0` for `""`). */
  function DecimalValue(s: string): (v: nat)
    requires AllDigits(s)
    ensures v == 0 <==> forall i :: 0 <= i < |s| ==> s[i] == '0'
  {
    if s == [] then 0 else 10 * DecimalValue(s[..|s| - 1]) + DigitValue(s[|s| - 1])
  }

  /** Reading back the digits that `NatToDecimal` writes gives the number. */
  lemma {:induction false} DecimalRoundTrip(n: nat)
    ensures DecimalValue(NatToDecimal(n)) == n
  {
    if n >= 10 {
      DecimalRoundTrip(n / 10);
      var s := NatToDecimal(n);
      assert s[..|s| - 1] == NatToDecimal(n / 10);
    }
  }

  /** A leading zero does not change the value of a digit string. */
  lemma {:induction false} LeadingZero(s: string)
    requires AllDigits(s)
    ensures AllDigits("0" + s) && DecimalValue("0" + s) == DecimalValue(s)
  {
    if s != [] {
      var t := "0" + s;
      assert t[..|t| - 1] == "0" + s[..|s| - 1];
      LeadingZero(s[..|s| - 1]);
    }
  }

  /** `n` copies of `c`. */
  function Repeat(c: char, n: nat): (r: string)
    ensures |r| == n && forall i :: 0 <= i < n ==> r[i] == c
  {
    if n == 0 then [] else [c] + Repeat(c, n - 1)
  }

  /** `s.padStart(width, c)` for a one-character pad string. */
  function PadStart(s: string, width: nat, c: char): (r: string)
    ensures |r| == if |s| < width then width else |s|
    ensures r == Repeat(c, |r| - |s|) + s
  {
    if |s| >= width then
      assert Repeat(c, 0) == [];
      s
    else Repeat(c, width - |s|) + s
  }

  /** Leading zeros do not change the value of a digit string. */
  lemma {:induction false} LeadingZeros(n: nat, s: string)
    requires AllDigits(s)
    ensures AllDigits(Repeat('0', n) + s) && DecimalValue(Repeat('0', n) + s) == DecimalValue(s)
  {
    if n > 0 {
      var t := Repeat('0', n - 1) + s;
      LeadingZeros(n - 1, s);
      LeadingZero(t);
      assert Repeat('0', n) == "0" + Repeat('0', n - 1);
      assert Repeat('0', n) + s == "0" + t;
    } else {
      assert Repeat('0', n) + s == s;
    }
  }

  /** `s.replace(from, to)` with a one-character string pattern: only the first occurrence is replaced. */
  function ReplaceFirst(s: string, from: char, to: string): (r: string)
  {
    if s == [] then []
    else if s[0] == from then to + s[1..]
    else [s[0]] + ReplaceFirst(s[1..], from, to)
  }

  /** The text before the first `from` is kept, `from` becomes `to`, and everything after it is kept. */
  lemma {:induction false} ReplaceFirstAt(a: string, b: string, from: char, to: string)
    requires from !in a
    ensures ReplaceFirst(a + [from] + b, from, to) == a + to + b
  {
    if a != [] {
      assert (a + [from] + b)[1..] == a[1..] + [from] + b;
      ReplaceFirstAt(a[1..], b, from, to);
      assert a == [a[0]] + a[1..];
    }
  }

  /** Without an occurrence of `from` nothing is replaced. */
  lemma {:induction false} ReplaceFirstAbsent(s: string, from: char, to: string)
    requires from !in s
    ensures ReplaceFirst(s, from, to) == s
  {
    if s != [] {
      ReplaceFirstAbsent(s[1..], from, to);
      assert s == [s[0]] + s[1..];
    }
  }
}
