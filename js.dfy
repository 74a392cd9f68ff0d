/** The JavaScript value coercions the bookkeeping screens rely on:
    `Number(x) || 0`, `parseFloat`, truthiness, `trim`, `toLowerCase`,
    `includes` and the decimal text of an integer. Amounts are idealised
    as `real` (no IEEE-754 rounding). */
module Js {

  datatype Option<T> = None | Some(value: T)

  /** A value as it reaches the core: form text, a stored number, a
      boolean flag, or a field that is missing (`undefined`) or `null`. */
  datatype JsVal = Undefined | Null | Bool(b: bool) | Num(n: real) | Str(s: string)

  predicate IsDigit(c: char) { '0' <= c <= '9' }

  /** The characters `trim` and the pattern `\s` treat as white space: the
      ECMAScript WhiteSpace and LineTerminator characters. */
  predicate IsWhitespace(c: char) {
    c == ' ' || c == '\t' || c == '\n' || c == '\r' || c == '\U{000B}' || c == '\U{000C}'
    || c == '\U{00A0}' || c == '\U{1680}' || ('\U{2000}' <= c <= '\U{200A}')
    || c == '\U{2028}' || c == '\U{2029}' || c == '\U{202F}' || c == '\U{205F}'
    || c == '\U{3000}' || c == '\U{FEFF}'
  }

  predicate AllDigits(s: string) { forall i :: 0 <= i < |s| ==> IsDigit(s[i]) }

  /** JavaScript truthiness: the test behind `x || fallback` and `if (x)`. */
  predicate Truthy(v: JsVal) {
    match v
    case Undefined => false
    case Null => false
    case Bool(b) => b
    case Num(n) => n != 0.0
    case Str(s) => s != ""
  }

  // ---------------------------------------------------------------------------
  // Decimal digits

  function DigitValue(c: char): (d: nat)
    ensures d < 10
  {
    if IsDigit(c) then (c as int - '0' as int) else 0
  }

  function DigitChar(d: nat): (c: char)
    requires d < 10
    ensures IsDigit(c) && DigitValue(c) == d
  {
    ('0' as int + d) as char
  }

  /** Value of a run of decimal digits, most significant first. */
  function DigitsValue(ds: string): nat {
    if ds == [] then 0 else DigitsValue(ds[..|ds| - 1]) * 10 + DigitValue(ds[|ds| - 1])
  }

  /** Value of the fraction `0.fp`, digit by digit from the right:
      0.d₁d₂… = (d₁ + 0.d₂…) / 10. */
  function FractionValue(fp: string): real
  {
    if fp == [] then 0.0 else (DigitValue(fp[0]) as real + FractionValue(fp[1..])) / 10.0
  }

  /** Value of the literal `ip.fp`. */
  function DecimalValue(ip: string, fp: string): real {
    DigitsValue(ip) as real + FractionValue(fp)
  }

  /** Length of the longest all-digit prefix. */
  function DigitPrefix(s: string): (k: nat)
    ensures k <= |s|
    ensures AllDigits(s[..k])
    ensures k < |s| ==> !IsDigit(s[k])
  {
    if s == [] || !IsDigit(s[0]) then 0 else 1 + DigitPrefix(s[1..])
  }

  /** `String(n)` for a natural number. */
  function NatToString(n: nat): (s: string)
    ensures |s| >= 1 && AllDigits(s)
    ensures s[0] == '0' ==> n == 0 && |s| == 1
    decreases n
  {
    if n < 10 then [DigitChar(n)] else NatToString(n / 10) + [DigitChar(n % 10)]
  }

  /** `String(i)` for an integer. */
  function IntToString(i: int): string {
    if i < 0 then "-" + NatToString(-i) else NatToString(i)
  }

  // ---------------------------------------------------------------------------
  // Strings

  function TrimStart(s: string): (r: string)
    ensures |r| <= |s| && r == s[|s| - |r|..]
    ensures r == "" || !IsWhitespace(r[0])
    ensures forall i :: 0 <= i < |s| - |r| ==> IsWhitespace(s[i])
  {
    if s != "" && IsWhitespace(s[0]) then TrimStart(s[1..]) else s
  }

  function TrimEnd(s: string): (r: string)
    ensures |r| <= |s| && r == s[..|r|]
    ensures r == "" || !IsWhitespace(r[|r| - 1])
    ensures forall i :: |r| <= i < |s| ==> IsWhitespace(s[i])
  {
    if s != "" && IsWhitespace(s[|s| - 1]) then TrimEnd(s[..|s| - 1]) else s
  }

  /** `s.trim()` */
  function Trim(s: string): string { TrimEnd(TrimStart(s)) }

  /** Text made of white space only: `s.trim() === ""` (see `TrimEmptyIffBlank`). */
  predicate IsBlank(s: string) { forall i :: 0 <= i < |s| ==> IsWhitespace(s[i]) }

  function LowerChar(c: char): char {
    if 'A' <= c <= 'Z' then (c as int + 32) as char else c
  }

  /** `s.toLowerCase()` on the ASCII letters. */
  function ToLower(s: string): (r: string)
    ensures |r| == |s|
    ensures forall i :: 0 <= i < |s| ==> r[i] == LowerChar(s[i])
  {
    if s == [] then [] else [LowerChar(s[0])] + ToLower(s[1..])
  }

  function UpperChar(c: char): char {
    if 'a' <= c <= 'z' then (c as int - 32) as char else c
  }

  /** `s.toUpperCase()` on the ASCII letters. */
  function ToUpper(s: string): (r: string)
    ensures |r| == |s|
    ensures forall i :: 0 <= i < |s| ==> r[i] == UpperChar(s[i])
  {
    if s == [] then [] else [UpperChar(s[0])] + ToUpper(s[1..])
  }

  /** The text of a field read with `(v || "")`, for text fields. */
  function TextOf(v: JsVal): string {
    if v.Str? then v.s else ""
  }

  /** `hay.includes(needle)`: the needle occurs at some position. */
  predicate Contains(hay: string, needle: string) {
    exists i :: 0 <= i <= |hay| && needle <= hay[i..]
  }

  /** Every text includes the empty string. */
  lemma ContainsEmpty(hay: string)
    ensures Contains(hay, "")
  {
    assert "" <= hay[0..];
  }

  /** Every text includes itself. */
  lemma ContainsItself(hay: string)
    ensures Contains(hay, hay)
  {
    assert hay <= hay[0..];
  }

  // ---------------------------------------------------------------------------
  // Number(x)

  /** An unsigned decimal literal `d+`, `d+.d*` or `.d+`; None when the text is not one. */
  function UnsignedDecimal(t: string): Option<real> {
    var k := DigitPrefix(t);
    var rest := t[k..];
    if rest == "" then
      (if k > 0 then Some(DigitsValue(t) as real) else None)
    else if rest[0] == '.' && AllDigits(rest[1..]) && k + |rest| > 1 then
      Some(DecimalValue(t[..k], rest[1..]))
    else None
  }

  function Negate(o: Option<real>): Option<real> {
    match o
    case None => None
    case Some(x) => Some(-x)
  }

  /** `Number(s)` for a string: surrounding white space is ignored, blank
      text is 0, otherwise the text must be a signed decimal literal; None
      stands for NaN. */
  function StringToNumber(s: string): Option<real> {
    if s != "" && IsWhitespace(s[0]) then StringToNumber(s[1..])
    else if s != "" && IsWhitespace(s[|s| - 1]) then StringToNumber(s[..|s| - 1])
    else if s == "" then Some(0.0)
    else if s[0] == '-' then Negate(UnsignedDecimal(s[1..]))
    else if s[0] == '+' then UnsignedDecimal(s[1..])
    else UnsignedDecimal(s)
  }

  /** `Number(v)`; None stands for NaN. */
  function ToNumber(v: JsVal): Option<real> {
    match v
    case Undefined => None
    case Null => Some(0.0)
    case Bool(b) => Some(if b then 1.0 else 0.0)
    case Num(n) => Some(n)
    case Str(s) => StringToNumber(s)
  }

  /** `Number(v) || 0`: NaN becomes 0. */
  function NumberOr0(v: JsVal): real {
    match ToNumber(v)
    case None => 0.0
    case Some(x) => x
  }

  /** `v || 0` on a field stored as a number: any value other than a
      number reads as 0 (a non-empty string would make the following `+`
      concatenate, which is not modelled). */
  function NumOrZero(v: JsVal): real {
    if v.Num? then v.n else 0.0
  }

  // ---------------------------------------------------------------------------
  // parseFloat(x)

  function Pow10(n: nat): (r: real)
    ensures r >= 1.0
  {
    if n == 0 then 1.0 else 10.0 * Pow10(n - 1)
  }

  /** The factor of an exponent part (`e` or `E`, an optional sign and at
      least one digit) at the start of `t`; 1 when `t` does not start with one. */
  function ExponentScale(t: string): real {
    if t != "" && (t[0] == 'e' || t[0] == 'E') then
      var signed := |t| > 1 && (t[1] == '+' || t[1] == '-');
      var ds := if signed then t[2..] else t[1..];
      var d := DigitPrefix(ds);
      if d == 0 then 1.0
      else if signed && t[1] == '-' then 1.0 / Pow10(DigitsValue(ds[..d]))
      else Pow10(DigitsValue(ds[..d]))
    else 1.0
  }

  /** A mantissa `m` followed by the text `t` after its digits. */
  function Scaled(m: real, t: string): real {
    m * ExponentScale(t)
  }

  /** The longest decimal literal at the start of `t`, with its exponent
      part; None when there is none. */
  function DecimalPrefix(t: string): Option<real> {
    var k := DigitPrefix(t);
    if k < |t| && t[k] == '.' then FractionPrefix(t[..k], t[k + 1..])
    else if k == 0 then None
    else Some(Scaled(DigitsValue(t[..k]) as real, t[k..]))
  }

  /** The rest of a decimal literal after the integer digits `ip` and the
      dot; a literal needs a digit before or after the dot. */
  function FractionPrefix(ip: string, t: string): Option<real> {
    var f := DigitPrefix(t);
    if ip == "" && f == 0 then None
    else Some(Scaled(DecimalValue(ip, t[..f]), t[f..]))
  }

  /** `parseFloat(s)` for a string: leading white space is skipped and the
      longest signed decimal prefix is read; None stands for NaN. */
  function ParseFloatString(s: string): Option<real> {
    if s != "" && IsWhitespace(s[0]) then ParseFloatString(s[1..])
    else if s != "" && s[0] == '-' then Negate(DecimalPrefix(s[1..]))
    else if s != "" && s[0] == '+' then DecimalPrefix(s[1..])
    else DecimalPrefix(s)
  }

  /** `parseFloat(v)`: a number reads back as itself; `undefined`, `null`
      and booleans print as words and give NaN. */
  function ParseFloat(v: JsVal): Option<real> {
    match v
    case Num(n) => Some(n)
    case Str(s) => ParseFloatString(s)
    case _ => None
  }

  /** `parseFloat(v) || 0` */
  function ParseFloatOr0(v: JsVal): real {
    match ParseFloat(v)
    case None => 0.0
    case Some(x) => x
  }

  // ---------------------------------------------------------------------------
  // parseInt(x, 10) and toString

  /** The text after an optional leading sign. */
  function Unsigned(t: string): (u: string)
    ensures |u| <= |t| && u == t[|t| - |u|..]
  {
    if t != "" && (t[0] == '-' || t[0] == '+') then t[1..] else t
  }

  /** `parseInt(s, 10)`: leading white space is skipped, an optional sign
      and the longest run of digits are read; None stands for NaN. */
  function ParseInt(s: string): (r: Option<int>)
    ensures r.None? <==> DigitPrefix(Unsigned(TrimStart(s))) == 0
    ensures r.Some? && r.value < 0 ==> TrimStart(s)[0] == '-'
  {
    var t := TrimStart(s);
    var u := Unsigned(t);
    var k := DigitPrefix(u);
    if k == 0 then None
    else if t[0] == '-' then Some(0 - DigitsValue(u[..k]) as int)
    else Some(DigitsValue(u[..k]) as int)
  }

  /** `v?.toString() || fallback` for a stored field. A number is kept as
      `Num(n)`, standing for its decimal text, which is never empty and
      reads back as `n`. */
  function TextOr(v: JsVal, fallback: string): (r: JsVal)
    ensures v.Num? ==> r == v
    ensures (v.Undefined? || v.Null? || v == Str("")) ==> r == Str(fallback)
  {
    match v
    case Undefined => Str(fallback)
    case Null => Str(fallback)
    case Bool(b) => Str(if b then "true" else "false")
    case Num(_) => v
    case Str(s) => if s == "" then Str(fallback) else v
  }

  // ---------------------------------------------------------------------------
  // Lemmas

  lemma {:induction false} DigitsValueAppend(ds: string, c: char)
    ensures DigitsValue(ds + [c]) == DigitsValue(ds) * 10 + DigitValue(c)
  {
    assert (ds + [c])[..|ds + [c]| - 1] == ds;
  }

  /** `NatToString` is read back by `DigitsValue`. */
  lemma {:induction false} NatToStringValue(n: nat)
    ensures DigitsValue(NatToString(n)) == n
    decreases n
  {
    if n >= 10 {
      NatToStringValue(n / 10);
      DigitsValueAppend(NatToString(n / 10), DigitChar(n % 10));
    }
  }

  lemma {:induction false} DigitPrefixOfDigits(ds: string, rest: string)
    requires AllDigits(ds)
    requires rest == "" || !IsDigit(rest[0])
    ensures DigitPrefix(ds + rest) == |ds|
    decreases |ds|
  {
    if ds != [] {
      assert (ds + rest)[1..] == ds[1..] + rest;
      DigitPrefixOfDigits(ds[1..], rest);
    } else {
      assert ds + rest == rest;
    }
  }

  lemma {:induction false} TrimOfDigits(ds: string)
    requires ds != "" && AllDigits(ds)
    ensures Trim(ds) == ds
  {
    assert !IsWhitespace(ds[0]) by { assert IsDigit(ds[0]); }
    assert TrimStart(ds) == ds;
    assert !IsWhitespace(ds[|ds| - 1]) by { assert IsDigit(ds[|ds| - 1]); }
    assert TrimEnd(ds) == ds;
  }

  /** The decimal text of a natural number is an unsigned literal of that value. */
  lemma UnsignedDecimalOfNumeral(n: nat)
    ensures UnsignedDecimal(NatToString(n)) == Some(n as real)
  {
    var s := NatToString(n);
    DigitPrefixOfDigits(s, "");
    assert s + "" == s;
    assert s[|s|..] == "";
    NatToStringValue(n);
  }

  /** `Number(String(n)) || 0 == n`: the decimal text of a count reads back as that count. */
  lemma NumberOfNumeral(n: nat)
    ensures NumberOr0(Str(NatToString(n))) == n as real
  {
    var s := NatToString(n);
    TrimOfDigits(s);
    assert s[0] != '-' && s[0] != '+';
    UnsignedDecimalOfNumeral(n);
    assert StringToNumber(s) == Some(n as real);
  }

  /** `parseFloat` reads only the leading numeral and its exponent part:
      whatever follows is ignored, and text that does not go on with an
      exponent leaves the numeral as it is. */
  lemma ParseFloatReadsLeadingNumeral(n: nat, rest: string)
    requires rest == "" || (!IsDigit(rest[0]) && rest[0] != '.')
    ensures ParseFloatOr0(Str(NatToString(n) + rest)) == n as real * ExponentScale(rest)
    ensures rest == "" || (rest[0] != 'e' && rest[0] != 'E') ==> ParseFloatOr0(Str(NatToString(n) + rest)) == n as real
  {
    var t := NatToString(n) + rest;
    DecimalPrefixOfNumeral(n, rest);
    assert t[0] == NatToString(n)[0];
    assert ParseFloatString(t) == DecimalPrefix(t);
  }

  lemma {:induction false} DecimalPrefixOfNumeral(n: nat, rest: string)
    requires rest == "" || (!IsDigit(rest[0]) && rest[0] != '.')
    ensures DecimalPrefix(NatToString(n) + rest) == Some(Scaled(n as real, rest))
  {
    var s := NatToString(n);
    var t := s + rest;
    DigitPrefixOfDigits(s, rest);
    var k := |s|;
    assert t[..k] == s;
    assert t[k..] == rest;
    NatToStringValue(n);
    DecimalPrefixWithoutDot(t);
    assert DigitsValue(t[..k]) as real == n as real;
  }

  lemma DecimalPrefixWithoutDot(t: string)
    requires DigitPrefix(t) > 0
    requires !(DigitPrefix(t) < |t| && t[DigitPrefix(t)] == '.')
    ensures DecimalPrefix(t) == Some(Scaled(DigitsValue(t[..DigitPrefix(t)]) as real, t[DigitPrefix(t)..]))
  {
  }

  /** An exponent part scales by the power of ten it names, and its sign
      picks multiplication or division. */
  lemma {:induction false} ExponentScaleOfNumeral(e: char, sign: string, d: nat, rest: string)
    requires e == 'e' || e == 'E'
    requires sign == "" || sign == "+" || sign == "-"
    requires rest == "" || !IsDigit(rest[0])
    ensures ExponentScale([e] + sign + NatToString(d) + rest)
         == if sign == "-" then 1.0 / Pow10(d) else Pow10(d)
  {
    if sign == "" {
      ExponentOfNumeral(e, d, rest);
    } else {
      assert sign == [sign[0]];
      SignedExponentOfNumeral(e, sign[0], d, rest);
    }
  }

  lemma {:induction false} ExponentOfNumeral(e: char, d: nat, rest: string)
    requires e == 'e' || e == 'E'
    requires rest == "" || !IsDigit(rest[0])
    ensures ExponentScale([e] + "" + NatToString(d) + rest) == Pow10(d)
  {
    var ds := NatToString(d) + rest;
    ExponentDigits(d, rest);
    assert [e] + "" + NatToString(d) + rest == [e] + ds;
    ExponentUnsigned(e, ds, d);
  }

  lemma {:induction false} SignedExponentOfNumeral(e: char, c: char, d: nat, rest: string)
    requires e == 'e' || e == 'E'
    requires c == '+' || c == '-'
    requires rest == "" || !IsDigit(rest[0])
    ensures ExponentScale([e] + [c] + NatToString(d) + rest) == if c == '-' then 1.0 / Pow10(d) else Pow10(d)
  {
    var ds := NatToString(d) + rest;
    ExponentDigits(d, rest);
    assert [e] + [c] + NatToString(d) + rest == [e, c] + ds;
    ExponentSigned(e, c, ds, d);
  }

  lemma {:induction false} ExponentUnsigned(e: char, ds: string, d: nat)
    requires e == 'e' || e == 'E'
    requires ds != "" && IsDigit(ds[0]) && DigitsValue(ds[..DigitPrefix(ds)]) == d && DigitPrefix(ds) > 0
    ensures ExponentScale([e] + ds) == Pow10(d)
  {
    var t := [e] + ds;
    assert t[1..] == ds && t[1] == ds[0];
  }

  lemma {:induction false} ExponentSigned(e: char, c: char, ds: string, d: nat)
    requires e == 'e' || e == 'E'
    requires c == '+' || c == '-'
    requires DigitsValue(ds[..DigitPrefix(ds)]) == d && DigitPrefix(ds) > 0
    ensures ExponentScale([e, c] + ds) == if c == '-' then 1.0 / Pow10(d) else Pow10(d)
  {
    var t := [e, c] + ds;
    assert t[2..] == ds && t[1] == c;
  }

  lemma {:induction false} ExponentDigits(d: nat, rest: string)
    requires rest == "" || !IsDigit(rest[0])
    ensures var ds := NatToString(d) + rest;
      ds != "" && IsDigit(ds[0]) && DigitPrefix(ds) == |NatToString(d)| && DigitsValue(ds[..DigitPrefix(ds)]) == d
  {
    var num := NatToString(d);
    var ds := num + rest;
    DigitPrefixOfDigits(num, rest);
    assert ds[..|num|] == num;
    NatToStringValue(d);
    assert ds[0] == num[0];
  }

  lemma TrimEmptyIffBlank(s: string)
    ensures Trim(s) == "" <==> IsBlank(s)
  {
  }

  /** `parseInt` reads the decimal text of a count back as that count,
      whatever non-digit text follows it. */
  lemma ParseIntOfNumeral(n: nat, rest: string)
    requires rest == "" || !IsDigit(rest[0])
    ensures ParseInt(NatToString(n) + rest) == Some(n as int)
  {
    var s := NatToString(n);
    var t := s + rest;
    assert t[0] == s[0];
    DigitPrefixOfDigits(s, rest);
    ParseIntOfDigitLed(t);
    assert t[..|s|] == s;
    NatToStringValue(n);
  }

  /** Text that starts with a digit is read without skipping or sign. */
  lemma ParseIntOfDigitLed(t: string)
    requires t != "" && IsDigit(t[0])
    ensures ParseInt(t) == Some(DigitsValue(t[..DigitPrefix(t)]) as int)
  {
    assert !IsWhitespace(t[0]);
    assert TrimStart(t) == t;
    assert Unsigned(t) == t;
  }

  /** Blank text counts as 0. */
  lemma {:induction false} NumberOr0OfBlank(s: string)
    requires IsBlank(s)
    ensures NumberOr0(Str(s)) == 0.0
  {
    BlankToNumber(s);
  }

  lemma {:induction false} BlankToNumber(s: string)
    requires IsBlank(s)
    ensures StringToNumber(s) == Some(0.0)
    decreases |s|
  {
    if s != "" {
      assert IsWhitespace(s[0]);
      BlankToNumber(s[1..]);
    }
  }

  /** A numeral followed by a character that cannot continue a number
      literal, and by text that does not end in white space, is not a
      number and counts as 0. The excluded characters are the ones that
      could continue it: digits, a dot, an exponent letter and, after `0`,
      the letters of the hexadecimal, octal and binary prefixes. */
  lemma {:induction false} NumberOr0OfNonNumeral(n: nat, rest: string)
    requires rest != "" && !IsDigit(rest[0]) && rest[0] != '.' && !IsWhitespace(rest[0])
    requires rest[0] != 'e' && rest[0] != 'E'
    requires n == 0 ==> rest[0] !in "xXoObB"
    requires !IsWhitespace(rest[|rest| - 1])
    ensures NumberOr0(Str(NatToString(n) + rest)) == 0.0
  {
    var s := NatToString(n);
    var t := s + rest;
    assert t[0] == s[0] && t[|t| - 1] == rest[|rest| - 1];
    assert !IsWhitespace(t[0]) && t[0] != '-' && t[0] != '+';
    assert StringToNumber(t) == UnsignedDecimal(t);
    DigitPrefixOfDigits(s, rest);
    assert t[|s|..] == rest;
  }
}
