/**
 * The parts of JavaScript's value semantics the core relies on: `Number(...)` and `parseInt(...)`
 * on strings, `String(n)` on integers, and the primitive values a request body carries.
 * Numbers are integers here; `None` stands for `NaN`.
 */
module Js {
  import opened Common

  /** A primitive JSON value as found in a request body. */
  datatype Value = Num(n: int) | Text(s: string)

  predicate IsDigit(c: char) { '0' <= c <= '9' }

  predicate IsHexDigit(c: char) { IsDigit(c) || 'a' <= c <= 'f' || 'A' <= c <= 'F' }

  /** The ASCII characters JavaScript treats as white space when converting strings. */
  predicate IsSpace(c: char) { c == ' ' || c == '\t' || c == '\n' || c == '\r' || c as int == 11 || c as int == 12 }

  predicate AllDigits(s: string) { forall i :: 0 <= i < |s| ==> IsDigit(s[i]) }

  predicate AllHexDigits(s: string) { forall i :: 0 <= i < |s| ==> IsHexDigit(s[i]) }

  function DigitValue(c: char): nat
    requires IsDigit(c)
  {
    c as int - '0' as int
  }

  function HexDigitValue(c: char): nat
    requires IsHexDigit(c)
  {
    if IsDigit(c) then DigitValue(c)
    else if 'a' <= c <= 'f' then c as int - 'a' as int + 10
    else c as int - 'A' as int + 10
  }

  function DigitChar(d: nat): char
    requires d < 10
  {
    ('0' as int + d) as char
  }

  /** The value of a string of decimal digits, most significant first. */
  function DecimalValue(s: string): nat
    requires AllDigits(s)
  {
    if s == [] then 0 else DecimalValue(s[..|s| - 1]) * 10 + DigitValue(s[|s| - 1])
  }

  function HexValue(s: string): nat
    requires AllHexDigits(s)
  {
    if s == [] then 0 else HexValue(s[..|s| - 1]) * 16 + HexDigitValue(s[|s| - 1])
  }

  /** The longest prefix of `s` made of decimal digits. */
  function DigitPrefix(s: string): (r: string)
    ensures |r| <= |s| && r == s[..|r|] && AllDigits(r)
    ensures |r| == |s| || !IsDigit(s[|r|])
  {
    if |s| > 0 && IsDigit(s[0]) then [s[0]] + DigitPrefix(s[1..]) else []
  }

  /** The longest prefix of `s` made of hexadecimal digits. */
  function HexPrefix(s: string): (r: string)
    ensures |r| <= |s| && r == s[..|r|] && AllHexDigits(r)
    ensures |r| == |s| || !IsHexDigit(s[|r|])
  {
    if |s| > 0 && IsHexDigit(s[0]) then [s[0]] + HexPrefix(s[1..]) else []
  }

  function TrimStart(s: string): (r: string)
    ensures |r| <= |s| && r == s[|s| - |r|..]
    ensures r == [] || !IsSpace(r[0])
  {
    if |s| > 0 && IsSpace(s[0]) then TrimStart(s[1..]) else s
  }

  function TrimEnd(s: string): (r: string)
    ensures |r| <= |s| && r == s[..|r|]
    ensures r == [] || !IsSpace(r[|r| - 1])
  {
    if |s| > 0 && IsSpace(s[|s| - 1]) then TrimEnd(s[..|s| - 1]) else s
  }

  /** `String(n)` for a natural number: its shortest decimal numeral. */
  function NatToString(n: nat): (s: string)
    ensures |s| >= 1 && AllDigits(s) && DecimalValue(s) == n
    ensures |s| > 1 ==> s[0] != '0'
    decreases n
  {
    if n < 10 then [DigitChar(n)]
    else
      var p := NatToString(n / 10);
      var s := p + [DigitChar(n % 10)];
      assert s[..|s| - 1] == p;
      s
  }

  /** `String(n)` for an integer. */
  function IntToString(n: int): string
  {
    if n < 0 then "-" + NatToString(-n) else NatToString(n)
  }

  /** `Number(s)`: the numeral after trimming white space; the empty string is 0. */
  function ToNumber(s: string): Option<int>
  {
    var t := TrimEnd(TrimStart(s));
    if t == [] then Some(0)
    else if (t[0] == '-' || t[0] == '+') && |t| > 1 && AllDigits(t[1..]) then
      var m: int := DecimalValue(t[1..]);
      Some(if t[0] == '-' then -m else m)
    else if AllDigits(t) then Some(DecimalValue(t))
    else None
  }

  predicate HasHexPrefix(s: string) { |s| >= 2 && s[0] == '0' && (s[1] == 'x' || s[1] == 'X') }

  /** The unsigned part of `parseInt`: a `0x` prefix selects base 16, otherwise the longest run
      of decimal digits is read; no digit at all gives NaN. */
  function ReadMagnitude(body: string): Option<nat>
  {
    if HasHexPrefix(body) then
      var h := HexPrefix(body[2..]);
      if h == [] then None else Some(HexValue(h))
    else
      var d := DigitPrefix(body);
      if d == [] then None else Some(DecimalValue(d))
  }

  function Negated(m: Option<nat>): Option<int>
  {
    if m.None? then None else Some(-(m.value as int))
  }

  function Widened(m: Option<nat>): Option<int>
  {
    if m.None? then None else Some(m.value)
  }

  /** `parseInt(s)` with no radix: leading white space and one sign are skipped first. */
  function ParseInt(s: string): Option<int>
  {
    var t := TrimStart(s);
    if |t| > 0 && t[0] == '-' then Negated(ReadMagnitude(t[1..]))
    else if |t| > 0 && t[0] == '+' then Widened(ReadMagnitude(t[1..]))
    else Widened(ReadMagnitude(t))
  }

  /** `Number(v)` for a body value. */
  function NumberOf(v: Value): Option<int>
  {
    match v
    case Num(n) => Some(n)
    case Text(s) => ToNumber(s)
  }

  /** Trimming the start leaves a string alone that does not start with white space. */
  lemma {:induction false} TrimStartUntouched(s: string)
    requires s != [] && !IsSpace(s[0])
    ensures TrimStart(s) == s
  {
  }

  /** Trimming leaves a string alone whose ends are not white space. */
  lemma {:induction false} TrimUntouched(s: string)
    requires s != [] && !IsSpace(s[0]) && !IsSpace(s[|s| - 1])
    ensures TrimStart(s) == s && TrimEnd(s) == s
  {
    TrimStartUntouched(s);
  }

  /** `Number(String(n)) == n`: printing an integer and reading it back gives it again. */
  lemma {:induction false} NumberOfString(n: int)
    ensures ToNumber(IntToString(n)) == Some(n)
  {
    var s := IntToString(n);
    var m: nat := if n < 0 then -n else n;
    var digits := NatToString(m);
    if n < 0 {
      assert s == "-" + digits;
      assert s[1..] == digits;
      assert s[|s| - 1] == digits[|digits| - 1];
    } else {
      assert s == digits;
    }
    TrimUntouched(s);
  }

  /** `Number` reads a plain run of decimal digits as its decimal value. */
  lemma {:induction false} ToNumberOfDigits(s: string)
    requires |s| >= 1 && AllDigits(s)
    ensures ToNumber(s) == Some(DecimalValue(s))
  {
    TrimUntouched(s);
  }

  /** `Number` gives NaN for a string without surrounding white space that has a character
      other than a digit after an optional leading sign. */
  lemma {:induction false} ToNumberNotNumeral(s: string, i: nat)
    requires s != [] && !IsSpace(s[0]) && !IsSpace(s[|s| - 1])
    requires i < |s| && !IsDigit(s[i]) && (i > 0 || (s[0] != '-' && s[0] != '+'))
    ensures ToNumber(s) == None
  {
    TrimUntouched(s);
    if i > 0 {
      assert s[1..][i - 1] == s[i];
    }
  }

  /** `parseInt` on a string that starts with a minus sign negates what follows it. */
  lemma {:induction false} ParseIntNegative(s: string)
    requires s != [] && s[0] == '-'
    ensures ParseInt(s) == Negated(ReadMagnitude(s[1..]))
  {
    TrimStartUntouched(s);
  }

  /** `parseInt` on a string that starts with neither white space nor a sign reads it as is. */
  lemma {:induction false} ParseIntUnsigned(s: string)
    requires s != [] && !IsSpace(s[0]) && s[0] != '-' && s[0] != '+'
    ensures ParseInt(s) == Widened(ReadMagnitude(s))
  {
    TrimStartUntouched(s);
  }

  /** `parseInt(String(n)) == n`. */
  lemma {:induction false} ParseIntOfString(n: int)
    ensures ParseInt(IntToString(n)) == Some(n)
  {
    var m: nat := if n < 0 then -n else n;
    var digits := NatToString(m);
    assert digits + [] == digits;
    assert !HasHexPrefix(digits) by {
      if |digits| >= 2 {
        assert IsDigit(digits[1]);
      }
    }
    ReadDecimal(digits, []);
    assert ReadMagnitude(digits) == Some(m);
    if n < 0 {
      var s := "-" + digits;
      assert IntToString(n) == s;
      assert s[1..] == digits;
      ParseIntNegative(s);
    } else {
      assert IntToString(n) == digits;
      ParseIntUnsigned(digits);
    }
  }

  /** `parseInt` on a string that starts with a run of decimal digits, and not with `0x`, reads
      those digits and ignores whatever follows the first non-digit. */
  lemma {:induction false} ParseIntStopsAtNonDigit(digits: string, rest: string)
    requires |digits| >= 1 && AllDigits(digits) && !HasHexPrefix(digits + rest)
    requires rest == [] || !IsDigit(rest[0])
    ensures ParseInt(digits + rest) == Some(DecimalValue(digits))
  {
    var s := digits + rest;
    assert s[0] == digits[0];
    ParseIntUnsigned(s);
    ReadDecimal(digits, rest);
  }

  /** `parseInt` on `0x` or `0X` followed by hexadecimal digits reads them in base 16 and
      ignores whatever follows the first non-hexadecimal character. */
  lemma {:induction false} ParseIntReadsHex(x: char, hex: string, rest: string)
    requires x == 'x' || x == 'X'
    requires |hex| >= 1 && AllHexDigits(hex) && (rest == [] || !IsHexDigit(rest[0]))
    ensures ParseInt(['0', x] + hex + rest) == Some(HexValue(hex))
  {
    var s := ['0', x] + hex + rest;
    assert s[0] == '0' && s[1] == x;
    ParseIntUnsigned(s);
    assert HasHexPrefix(s);
    assert s[2..] == hex + rest;
    HexPrefixOf(hex, rest);
  }

  lemma {:induction false} HexPrefixOf(hex: string, rest: string)
    requires AllHexDigits(hex)
    requires rest == [] || !IsHexDigit(rest[0])
    ensures HexPrefix(hex + rest) == hex
  {
    if hex != [] {
      assert (hex + rest)[0] == hex[0];
      assert (hex + rest)[1..] == hex[1..] + rest;
      HexPrefixOf(hex[1..], rest);
    } else {
      assert hex + rest == rest;
    }
  }

  lemma {:induction false} ReadDecimal(digits: string, rest: string)
    requires |digits| >= 1 && AllDigits(digits) && !HasHexPrefix(digits + rest)
    requires rest == [] || !IsDigit(rest[0])
    ensures ReadMagnitude(digits + rest) == Some(DecimalValue(digits))
  {
    DigitPrefixOf(digits, rest);
  }

  lemma {:induction false} DigitPrefixOf(digits: string, rest: string)
    requires AllDigits(digits)
    requires rest == [] || !IsDigit(rest[0])
    ensures DigitPrefix(digits + rest) == digits
  {
    if digits != [] {
      assert (digits + rest)[0] == digits[0];
      assert (digits + rest)[1..] == digits[1..] + rest;
      DigitPrefixOf(digits[1..], rest);
    } else {
      assert digits + rest == rest;
    }
  }
}
