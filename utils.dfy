/**
 * utils.py: safe_float / safe_int, which turn any value into a number or fall back to a
 * default, and the text-cleaning stages of clean_json_response, with the JSON decoder
 * passed in as a parameter.
 */
module Utils {
  import opened Wrappers
  import opened Text
  import opened Numbers

  /** A Python value as it reaches the helpers: decoded from JSON or read from a column.
      A list or dict is a container of the given size. */
  datatype PyValue =
    | PyNone
    | PyBool(b: bool)
    | PyInt(i: int)
    | PyFloat(x: real)
    | PyStr(s: string)
    | PyContainer(size: nat)

  /** Python truthiness: None, False, zero, "" and empty containers are false. */
  predicate Truthy(v: PyValue) {
    match v
    case PyNone => false
    case PyBool(b) => b
    case PyInt(i) => i != 0
    case PyFloat(x) => x != 0.0
    case PyStr(s) => s != []
    case PyContainer(n) => n > 0
  }

  /** The longest prefix of `s` made of decimal digits. */
  function TakeDigits(s: string): (r: string)
    ensures |r| <= |s| && r == s[..|r|] && AllDigits(r)
    ensures |r| < |s| ==> !IsDigit(s[|r|])
  {
    if s != [] && IsDigit(s[0]) then [s[0]] + TakeDigits(s[1..]) else []
  }

  function Pow10(n: nat): (r: nat)
    ensures r >= 1
  {
    if n == 0 then 1 else 10 * Pow10(n - 1)
  }

  /** The digits of an unsigned decimal literal: `12`, `12.`, `12.5` or `.5`. */
  function ParseUnsignedDecimal(s: string): Option<real> {
    var ip := TakeDigits(s);
    var rest := s[|ip|..];
    if rest == [] then
      if ip != [] then Some(DigitsValue(ip) as real) else None
    else if rest[0] == '.' && AllDigits(rest[1..]) && (ip != [] || |rest| > 1) then
      Some(DigitsValue(ip) as real + DigitsValue(rest[1..]) as real / Pow10(|rest| - 1) as real)
    else None
  }

  /** A decimal literal with an optional sign, as float() reads it once stripped. */
  function ParseDecimal(s: string): Option<real> {
    if s != [] && (s[0] == '-' || s[0] == '+') then
      match ParseUnsignedDecimal(s[1..])
      case Some(x) => Some(if s[0] == '-' then -x else x)
      case None => None
    else ParseUnsignedDecimal(s)
  }

  /** float(v): what it returns, or the exception it raises. */
  function ToFloat(v: PyValue): Result<real, PyError> {
    match v
    case PyNone => Failure(TypeError)
    case PyBool(b) => Success(if b then 1.0 else 0.0)
    case PyInt(i) => Success(i as real)
    case PyFloat(x) => Success(x)
    case PyStr(s) =>
      (match ParseDecimal(Strip(s))
       case Some(x) => Success(x)
       case None => Failure(ValueError))
    case PyContainer(_) => Failure(TypeError)
  }

  /** int(v): what it returns, or the exception it raises. */
  function ToInt(v: PyValue): Result<int, PyError> {
    match v
    case PyNone => Failure(TypeError)
    case PyBool(b) => Success(if b then 1 else 0)
    case PyInt(i) => Success(i)
    case PyFloat(x) => Success(Truncate(x))
    case PyStr(s) =>
      (match ParseInt(Strip(s))
       case Some(i) => Success(i)
       case None => Failure(ValueError))
    case PyContainer(_) => Failure(TypeError)
  }

  /** safe_float(value, default): None gives the default; a value float() rejects with
      TypeError or ValueError gives the default too; anything else is converted. */
  function SafeFloat(v: PyValue, default: Option<real>): (r: Option<real>)
    ensures v.PyNone? ==> r == default
    ensures ToFloat(v).Failure? ==> r == default
    ensures ToFloat(v).Success? ==> r == Some(ToFloat(v).value)
  {
    if v.PyNone? then default
    else match ToFloat(v)
      case Success(x) => Some(x)
      case Failure(_) => default
  }

  /** safe_int(value, default), with the same defaulting as SafeFloat. */
  function SafeInt(v: PyValue, default: Option<int>): (r: Option<int>)
    ensures v.PyNone? ==> r == default
    ensures ToInt(v).Failure? ==> r == default
    ensures ToInt(v).Success? ==> r == Some(ToInt(v).value)
  {
    if v.PyNone? then default
    else match ToInt(v)
      case Success(i) => Some(i)
      case Failure(_) => default
  }

  /** The decimal text of an integer, as a string value, converts back to that integer. */
  lemma SafeIntReadsDecimalText(n: int, default: Option<int>)
    ensures SafeInt(PyStr(IntToString(n)), default) == Some(n)
  {
    var s := IntToString(n);
    IntToStringRoundTrip(n);
    DecimalTextIsTrimmed(n);
    StripFixesTrimmed(s);
  }

  lemma DecimalTextIsTrimmed(n: int)
    ensures IntToString(n) != []
    ensures !IsSpace(IntToString(n)[0]) && !IsSpace(IntToString(n)[|IntToString(n)| - 1])
  {
    var s := IntToString(n);
    if n < 0 {
      assert s[1..] == NatToString(-n);
      assert s[|s| - 1] == NatToString(-n)[|NatToString(-n)| - 1];
    }
  }

  /** A string of digits read as an unsigned decimal is its DigitsValue. */
  lemma DigitsAreUnsignedDecimal(s: string)
    requires s != [] && AllDigits(s)
    ensures ParseUnsignedDecimal(s) == Some(DigitsValue(s) as real)
  {
    DigitsPrefixIsAll(s);
  }

  lemma {:induction false} DigitsPrefixIsAll(s: string)
    requires AllDigits(s)
    ensures TakeDigits(s) == s
  {
    if s != [] {
      DigitsPrefixIsAll(s[1..]);
    }
  }

  /** The decimal text of an integer, as a string value, converts to that number as a float. */
  lemma SafeFloatReadsDecimalText(n: int, default: Option<real>)
    ensures SafeFloat(PyStr(IntToString(n)), default) == Some(n as real)
  {
    var s := IntToString(n);
    DecimalTextIsTrimmed(n);
    StripFixesTrimmed(s);
    assert Strip(s) == s;
    if n < 0 {
      var t := NatToString(-n);
      NatToStringValue(-n);
      assert s[0] == '-' && s[1..] == t;
      DigitsAreUnsignedDecimal(t);
      assert ParseUnsignedDecimal(s[1..]) == Some((-n) as real);
      assert ParseDecimal(s) == Some(n as real);
    } else {
      NatToStringValue(n);
      DigitsAreUnsignedDecimal(s);
      assert IsDigit(s[0]);
      assert ParseDecimal(s) == Some(n as real);
    }
  }

  /** Converting a float with safe_int truncates it toward zero. */
  lemma SafeIntTruncatesFloat(x: real, default: Option<int>)
    ensures SafeInt(PyFloat(x), default).Some?
    ensures var n := SafeInt(PyFloat(x), default).value;
            -1.0 < x - n as real < 1.0 && (n >= 0 <==> x > -1.0) && (x >= 0.0 ==> n as real <= x)
              && (x < 0.0 ==> x <= n as real)
  {
  }

  /** Text that is not a number falls back to the default instead of raising: text that
      starts, once stripped, with an ASCII character that cannot begin a decimal literal,
      `inf`, `infinity` or `nan`. */
  lemma SafeFloatRejectsText(s: string, default: Option<real>)
    requires Strip(s) != [] && Strip(s)[0] as int < 128
    requires !IsDigit(Strip(s)[0]) && Strip(s)[0] !in "+-.iInN"
    ensures SafeFloat(PyStr(s), default) == default
  {
  }

  // ---------------------------------------------------------------------------
  // clean_json_response

  predicate Printable(c: char) {
    '\U{20}' <= c <= '\U{7E}'
  }

  predicate AllPrintable(s: string) {
    forall i :: 0 <= i < |s| ==> Printable(s[i])
  }

  /** re.sub(r'[^\x20-\x7E]+', '', s): every character outside 0x20-0x7E is dropped. */
  function DropNonPrintable(s: string): (r: string)
    ensures AllPrintable(r)
    ensures |r| <= |s|
  {
    if s == [] then []
    else if Printable(s[0]) then [s[0]] + DropNonPrintable(s[1..])
    else DropNonPrintable(s[1..])
  }

  /** Text that is already printable passes the first stage unchanged. */
  lemma {:induction false} DropNonPrintableKeepsPrintable(s: string)
    requires AllPrintable(s)
    ensures DropNonPrintable(s) == s
  {
    if s != [] {
      DropNonPrintableKeepsPrintable(s[1..]);
    }
  }

  const LeftQuote: string := "\U{201C}"
  const RightQuote: string := "\U{201D}"
  const Fence: string := "```"
  const JsonFence: string := "```json"

  /** Line 63: typographic double quotes become ASCII double quotes. */
  function ReplaceSmartQuotes(s: string): string {
    ReplaceAll(ReplaceAll(s, LeftQuote, "\""), RightQuote, "\"")
  }

  /** Line 64: Markdown code fences are removed. */
  function RemoveFences(s: string): string {
    ReplaceAll(ReplaceAll(s, JsonFence, ""), Fence, "")
  }

  /** Lines 62-65: the text that is handed to the JSON decoder. */
  function CleanText(s: string): string {
    Strip(RemoveFences(ReplaceSmartQuotes(DropNonPrintable(s))))
  }

  /** The quote replacement of line 63 never fires: line 62 has already dropped both quotes. */
  lemma SmartQuotesAlreadyGone(s: string)
    ensures ReplaceSmartQuotes(DropNonPrintable(s)) == DropNonPrintable(s)
  {
    var d := DropNonPrintable(s);
    ReplaceAbsent(d, LeftQuote, "\"");
    ReplaceAbsent(d, RightQuote, "\"");
  }

  /** A character of str.replace's result comes from the input or from the replacement. */
  lemma {:induction false} ReplaceAllFrom(s: string, pat: string, rep: string, c: char)
    requires pat != []
    requires c in ReplaceAll(s, pat, rep)
    ensures c in s || c in rep
    decreases |s|
  {
    if |pat| <= |s| && s[..|pat|] == pat {
      if c !in rep {
        ReplaceAllFrom(s[|pat|..], pat, rep, c);
      }
    } else if s != [] {
      if c != s[0] {
        ReplaceAllFrom(s[1..], pat, rep, c);
      }
    }
  }

  predicate FenceAt(s: string, i: int) {
    0 <= i && i + 3 <= |s| && s[i] == '`' && s[i + 1] == '`' && s[i + 2] == '`'
  }

  predicate HasFence(s: string) {
    exists i | 0 <= i < |s| :: FenceAt(s, i)
  }

  predicate StartsWithBackticks(s: string, n: nat) {
    n <= |s| && forall k :: 0 <= k < n ==> s[k] == '`'
  }

  function RemoveFence(s: string): string {
    ReplaceAll(s, Fence, "")
  }

  lemma RemoveFenceHead(s: string)
    ensures StartsWithBackticks(s, 3) ==> RemoveFence(s) == RemoveFence(s[3..])
    ensures !StartsWithBackticks(s, 3) && s != [] ==> RemoveFence(s) == [s[0]] + RemoveFence(s[1..])
  {
    if StartsWithBackticks(s, 3) {
      assert s[..3] == Fence;
    } else if s != [] {
      if 3 <= |s| {
        var k :| 0 <= k < 3 && s[k] != '`';
        assert s[..3][k] != Fence[k];
      }
    }
  }

  lemma RemoveFenceKeepsNonBacktickHead(s: string)
    requires !StartsWithBackticks(s, 1)
    ensures !StartsWithBackticks(RemoveFence(s), 1)
  {
    if s == [] {
      assert RemoveFence(s) == [];
    } else {
      assert s[0] != '`';
      assert !StartsWithBackticks(s, 3);
      RemoveFenceHead(s);
      assert RemoveFence(s)[0] == s[0];
    }
  }

  lemma RemoveFenceKeepsShortRun(s: string)
    requires !StartsWithBackticks(s, 2)
    ensures !StartsWithBackticks(RemoveFence(s), 2)
  {
    RemoveFenceHead(s);
    if StartsWithBackticks(s, 1) {
      assert |s| == 1 || s[1] != '`';
      assert !StartsWithBackticks(s, 3);
      assert !StartsWithBackticks(s[1..], 1);
      RemoveFenceKeepsNonBacktickHead(s[1..]);
      var r := RemoveFence(s);
      assert r == [s[0]] + RemoveFence(s[1..]);
      assert |r| >= 2 ==> r[1] == RemoveFence(s[1..])[0];
    } else {
      RemoveFenceKeepsNonBacktickHead(s);
    }
  }

  /** After str.replace("```", "") no "```" is left, not even one formed by joining the
      pieces around a removed fence. */
  lemma {:induction false} RemoveFenceLeavesNone(s: string)
    ensures !HasFence(RemoveFence(s))
    decreases |s|
  {
    RemoveFenceHead(s);
    if StartsWithBackticks(s, 3) {
      RemoveFenceLeavesNone(s[3..]);
    } else if s != [] {
      var tail := RemoveFence(s[1..]);
      RemoveFenceLeavesNone(s[1..]);
      var r := [s[0]] + tail;
      if s[0] == '`' {
        assert !StartsWithBackticks(s[1..], 2);
        RemoveFenceKeepsShortRun(s[1..]);
      }
      forall i | FenceAt(r, i) ensures false {
        if i > 0 {
          assert FenceAt(tail, i - 1);
        }
      }
    }
  }

  /** A piece cut out of fence-free text is fence-free. */
  lemma InfixHasNoFence(s: string, i: int, j: int)
    requires 0 <= i <= j <= |s| && !HasFence(s)
    ensures !HasFence(s[i..j])
  {
    forall k | FenceAt(s[i..j], k) ensures false {
      assert FenceAt(s, i + k);
    }
  }

  lemma AllPrintableInfix(s: string, i: int, j: int)
    requires 0 <= i <= j <= |s| && AllPrintable(s)
    ensures AllPrintable(s[i..j])
  {
  }

  lemma ReplacePreservesPrintable(s: string, pat: string, rep: string)
    requires pat != [] && AllPrintable(s) && AllPrintable(rep)
    ensures AllPrintable(ReplaceAll(s, pat, rep))
  {
    var r := ReplaceAll(s, pat, rep);
    forall i | 0 <= i < |r| ensures Printable(r[i]) {
      ReplaceAllFrom(s, pat, rep, r[i]);
    }
  }

  /** The stages before the final strip(), named. */
  function Unstripped(s: string): string {
    ReplaceAll(ReplaceAll(DropNonPrintable(s), JsonFence, ""), Fence, "")
  }

  lemma CleanTextIsStrippedStages(s: string)
    ensures CleanText(s) == Strip(Unstripped(s))
  {
    SmartQuotesAlreadyGone(s);
  }

  lemma UnstrippedShape(s: string)
    ensures AllPrintable(Unstripped(s)) && !HasFence(Unstripped(s))
  {
    var d := DropNonPrintable(s);
    var f1 := ReplaceAll(d, JsonFence, "");
    ReplacePreservesPrintable(d, JsonFence, "");
    ReplacePreservesPrintable(f1, Fence, "");
    RemoveFenceLeavesNone(f1);
  }

  /** What clean_json_response hands to the decoder: printable ASCII only, no code fence left,
      and no whitespace at either end. */
  lemma CleanTextShape(s: string)
    ensures AllPrintable(CleanText(s))
    ensures !HasFence(CleanText(s))
    ensures CleanText(s) == [] || (CleanText(s)[0] != ' ' && CleanText(s)[|CleanText(s)| - 1] != ' ')
  {
    CleanTextIsStrippedStages(s);
    UnstrippedShape(s);
    StripKeepsPrintable(Unstripped(s));
    StripKeepsNoFence(Unstripped(s));
  }

  /** strip() keeps a string printable, since what it keeps is a piece of it. */
  lemma StripKeepsPrintable(u: string)
    requires AllPrintable(u)
    ensures AllPrintable(Strip(u))
  {
    StripIsInfix(u);
    var i := |u| - |LStrip(u)|;
    AllPrintableInfix(u, i, i + |Strip(u)|);
  }

  /** strip() keeps a string fence-free, since what it keeps is a piece of it. */
  lemma StripKeepsNoFence(u: string)
    requires !HasFence(u)
    ensures !HasFence(Strip(u))
  {
    StripIsInfix(u);
    var i := |u| - |LStrip(u)|;
    InfixHasNoFence(u, i, i + |Strip(u)|);
  }

  /** clean_json_response(text): the cleaned text given to json.loads (`decode`); a decoding
      error becomes None instead of an exception. */
  function CleanJsonResponse<J>(text: string, decode: string -> Result<J, string>): (r: Option<J>)
    ensures r.None? <==> decode(CleanText(text)).Failure?
    ensures r.Some? ==> decode(CleanText(text)) == Success(r.value)
  {
    match decode(CleanText(text))
    case Success(j) => Some(j)
    case Failure(_) => None
  }
}
