/**
 * String operations of Python's `str` and `re` that the modelled code relies on:
 * whitespace and strip(), case-insensitive matching as `re.IGNORECASE` does it for the
 * letters that occur in the patterns, str.replace, split-and-take-last, join, and the
 * decimal text of integers (str(int) and int(str)).
 */
module Text {
  import opened Wrappers

  /** The characters for which Python's str.isspace() holds; `\s` in a str pattern and
      str.strip() use the same set. */
  predicate IsSpace(c: char) {
    || c == ' '
    || ('\t' <= c <= '\r')
    || ('\U{1C}' <= c <= '\U{1F}')
    || c == '\U{85}' || c == '\U{A0}' || c == '\U{1680}'
    || ('\U{2000}' <= c <= '\U{200A}')
    || c == '\U{2028}' || c == '\U{2029}' || c == '\U{202F}' || c == '\U{205F}'
    || c == '\U{3000}'
  }

  /** str.lstrip(): drops the longest all-whitespace prefix. */
  function LStrip(s: string): (r: string)
    ensures |r| <= |s| && r == s[|s| - |r|..]
    ensures forall i :: 0 <= i < |s| - |r| ==> IsSpace(s[i])
    ensures r == [] || !IsSpace(r[0])
    decreases |s|
  {
    if s != [] && IsSpace(s[0]) then LStrip(s[1..]) else s
  }

  /** str.rstrip(): drops the longest all-whitespace suffix. */
  function RStrip(s: string): (r: string)
    ensures |r| <= |s| && r == s[..|r|]
    ensures forall i :: |r| <= i < |s| ==> IsSpace(s[i])
    ensures r == [] || !IsSpace(r[|r| - 1])
    decreases |s|
  {
    if s != [] && IsSpace(s[|s| - 1]) then RStrip(s[..|s| - 1]) else s
  }

  /** str.strip(): the infix of `s` left once whitespace is dropped at both ends. */
  function Strip(s: string): (r: string)
    ensures |r| <= |s|
    ensures r == [] || (!IsSpace(r[0]) && !IsSpace(r[|r| - 1]))
  {
    RStrip(LStrip(s))
  }

  /** strip() leaves a string alone exactly when it has no whitespace at either end. */
  lemma StripFixesTrimmed(s: string)
    ensures Strip(s) == s <==> (s == [] || (!IsSpace(s[0]) && !IsSpace(s[|s| - 1])))
  {
    if s != [] && !IsSpace(s[0]) && !IsSpace(s[|s| - 1]) {
      assert LStrip(s) == s;
      assert RStrip(s) == s;
    }
  }

  /** What strip() keeps is the contiguous piece of `s` after its leading whitespace. */
  lemma StripIsInfix(s: string)
    ensures (|s| - |LStrip(s)|) + |Strip(s)| <= |s|
    ensures Strip(s) == s[(|s| - |LStrip(s)|)..(|s| - |LStrip(s)|) + |Strip(s)|]
  {
    var l := LStrip(s);
    var i := |s| - |l|;
    var r := RStrip(l);
    assert l == s[i..];
    assert r == l[..|r|];
    assert r == s[i..i + |r|];
  }

  /** Every character strip() removes, at either end, is whitespace. */
  lemma StripRemovesOnlySpace(s: string)
    ensures forall k :: 0 <= k < (|s| - |LStrip(s)|) ==> IsSpace(s[k])
    ensures forall k :: (|s| - |LStrip(s)|) + |Strip(s)| <= k < |s| ==> IsSpace(s[k])
  {
    var l := LStrip(s);
    var i := |s| - |l|;
    var r := RStrip(l);
    forall k | i + |r| <= k < |s| ensures IsSpace(s[k]) {
      assert s[k] == l[k - i];
    }
  }

  /** Lower-casing of an ASCII letter; every other character is left as it is. */
  function AsciiLower(c: char): char {
    if 'A' <= c <= 'Z' then (c as int + 32) as char else c
  }

  function AsciiLowerString(s: string): (r: string)
    ensures |r| == |s| && forall i :: 0 <= i < |s| ==> r[i] == AsciiLower(s[i])
  {
    seq(|s|, i requires 0 <= i < |s| => AsciiLower(s[i]))
  }

  /** Whether text character `c` matches pattern character `p` under re.IGNORECASE:
      equal after lower-casing, or one of the non-ASCII letters that Python's re also folds
      onto an ASCII letter (dotted and dotless I onto i, long s onto s, Kelvin sign onto k). */
  predicate SameIgnoringCase(c: char, p: char) {
    var l := AsciiLower(p);
    || AsciiLower(c) == l
    || (l == 'i' && (c == '\U{130}' || c == '\U{131}'))
    || (l == 's' && c == '\U{17F}')
    || (l == 'k' && c == '\U{212A}')
  }

  /** A character that matches a letter under re.IGNORECASE is not whitespace. */
  lemma LetterMatchIsNotSpace(c: char, p: char)
    requires 'a' <= AsciiLower(p) <= 'z' && SameIgnoringCase(c, p)
    ensures !IsSpace(c)
  {
  }

  /** `s` begins with `pat`, compared character by character under re.IGNORECASE. */
  predicate StartsWithIgnoringCase(s: string, pat: string) {
    |pat| <= |s| && forall k :: 0 <= k < |pat| ==> SameIgnoringCase(s[k], pat[k])
  }

  /** A match only looks at the first |pat| characters. */
  lemma StartsWithIgnoringCaseTake(s: string, pat: string)
    requires StartsWithIgnoringCase(s, pat)
    ensures |pat| <= |s| && StartsWithIgnoringCase(s[..|pat|], pat)
  {
    assert forall k :: 0 <= k < |pat| ==> s[..|pat|][k] == s[k];
  }

  /** str.replace(pat, rep): a left-to-right scan that replaces non-overlapping occurrences. */
  function ReplaceAll(s: string, pat: string, rep: string): string
    requires pat != []
    decreases |s|
  {
    if |pat| <= |s| && s[..|pat|] == pat then rep + ReplaceAll(s[|pat|..], pat, rep)
    else if s == [] then []
    else [s[0]] + ReplaceAll(s[1..], pat, rep)
  }

  /** Replacing a pattern whose first character never occurs changes nothing. */
  lemma {:induction false} ReplaceAbsent(s: string, pat: string, rep: string)
    requires pat != []
    requires forall i :: 0 <= i < |s| ==> s[i] != pat[0]
    ensures ReplaceAll(s, pat, rep) == s
    decreases |s|
  {
    if s != [] {
      if |pat| <= |s| { assert s[..|pat|][0] != pat[0]; }
      ReplaceAbsent(s[1..], pat, rep);
    }
  }

  /** Replacing a one-character pattern by text without that character removes it entirely. */
  lemma {:induction false} ReplaceCharRemoves(s: string, c: char, rep: string)
    requires c !in rep
    ensures c !in ReplaceAll(s, [c], rep)
    decreases |s|
  {
    if s != [] {
      ReplaceCharRemoves(s[1..], c, rep);
      if s[..1] != [c] {
        assert s[0] != c by { assert s[..1][0] == s[0]; }
      }
    }
  }

  /** `c not in s`, position by position. */
  predicate Lacks(s: string, c: char) {
    forall i :: 0 <= i < |s| ==> s[i] != c
  }

  /** `s.split(sep)[-1]`: the longest suffix of `s` that holds no `sep`. */
  function AfterLast(s: string, sep: char): (r: string)
    ensures |r| <= |s| && r == s[|s| - |r|..]
    ensures forall i :: 0 <= i < |r| ==> r[i] != sep
    ensures |r| < |s| ==> s[|s| - |r| - 1] == sep
  {
    if s == [] then []
    else if s[|s| - 1] == sep then []
    else AfterLast(s[..|s| - 1], sep) + [s[|s| - 1]]
  }

  /** sep.join(parts). */
  function Join(sep: string, parts: seq<string>): string {
    if parts == [] then ""
    else if |parts| == 1 then parts[0]
    else parts[0] + sep + Join(sep, parts[1..])
  }

  predicate IsDigit(c: char) {
    '0' <= c <= '9'
  }

  predicate AllDigits(s: string) {
    forall i :: 0 <= i < |s| ==> IsDigit(s[i])
  }

  function DigitChar(d: nat): (c: char)
    requires d < 10
    ensures IsDigit(c) && c as int - '0' as int == d
  {
    (d + '0' as int) as char
  }

  /** The value of a string of decimal digits (leading zeros allowed, as in int("007")). */
  function DigitsValue(s: string): nat
    requires AllDigits(s)
  {
    if s == [] then 0
    else DigitsValue(s[..|s| - 1]) * 10 + (s[|s| - 1] as int - '0' as int)
  }

  /** str(n) for a non-negative integer: its decimal digits without leading zeros. */
  function NatToString(n: nat): (r: string)
    ensures r != [] && AllDigits(r)
    ensures |r| > 1 ==> r[0] != '0'
    decreases n
  {
    if n < 10 then [DigitChar(n)] else NatToString(n / 10) + [DigitChar(n % 10)]
  }

  /** str(i) for any integer. */
  function IntToString(i: int): string {
    if i < 0 then "-" + NatToString(-i) else NatToString(i)
  }

  /** An optional sign followed by one or more ASCII decimal digits, and nothing else. */
  function ParseInt(s: string): Option<int> {
    if s != [] && (s[0] == '-' || s[0] == '+') then
      if |s| > 1 && AllDigits(s[1..]) then
        var v: int := DigitsValue(s[1..]);
        Some(if s[0] == '-' then -v else v)
      else None
    else if s != [] && AllDigits(s) then Some(DigitsValue(s))
    else None
  }

  lemma {:induction false} NatToStringValue(n: nat)
    ensures DigitsValue(NatToString(n)) == n
    decreases n
  {
    if n >= 10 {
      NatToStringValue(n / 10);
      var r := NatToString(n);
      assert r[..|r| - 1] == NatToString(n / 10);
    }
  }

  /** Reading back the decimal text of an integer gives the integer. */
  lemma IntToStringRoundTrip(i: int)
    ensures ParseInt(IntToString(i)) == Some(i)
  {
    var s := IntToString(i);
    if i < 0 {
      NatToStringValue(-i);
      assert s[0] == '-' && s[1..] == NatToString(-i);
    } else {
      NatToStringValue(i);
      assert IsDigit(s[0]);
    }
  }
}
