/**
 * The global `parseInt(string)` with no radix argument, as section 19.2.5 of
 * ECMA-262 defines it, and the `parseInt(v) || 0` coercion the user-limit
 * field of src/App.jsx applies to what is typed into it.
 */
module EcmaParseInt {
  import opened Wrappers

  /** A Number that parseInt can produce: NaN or an integral value (-0 is folded into 0). */
  datatype Number = NaN | Finite(value: int)

  /**
   * The code points that `TrimString(…, start)` removes: WhiteSpace
   * (section 12.2 of ECMA-262, with every code point of Unicode category
   * Zs) and LineTerminator (section 12.3).
   */
  predicate IsStrWhiteSpaceChar(c: char) {
    c == '\t' || c == '\n' || c == '\U{000B}' || c == '\U{000C}' || c == '\r' || c == ' '
    || c == '\U{00A0}' || c == '\U{1680}' || ('\U{2000}' <= c <= '\U{200A}')
    || c == '\U{2028}' || c == '\U{2029}' || c == '\U{202F}' || c == '\U{205F}'
    || c == '\U{3000}' || c == '\U{FEFF}'
  }

  /** Removes the leading white space. */
  function TrimStart(s: string): (t: string)
    ensures |t| <= |s| && t == s[|s| - |t|..]
    ensures forall i :: 0 <= i < |s| - |t| ==> IsStrWhiteSpaceChar(s[i])
    ensures t == [] || !IsStrWhiteSpaceChar(t[0])
  {
    if s != [] && IsStrWhiteSpaceChar(s[0]) then TrimStart(s[1..]) else s
  }

  /** The value of a character read as a digit of radix up to 36, or 36 when it is no digit. */
  function DigitValue(c: char): (d: nat)
    ensures d <= 36
  {
    if '0' <= c <= '9' then c as int - '0' as int
    else if 'a' <= c <= 'z' then c as int - 'a' as int + 10
    else if 'A' <= c <= 'Z' then c as int - 'A' as int + 10
    else 36
  }

  predicate IsRadixDigit(c: char, radix: nat) {
    DigitValue(c) < radix
  }

  /** The length of the longest prefix of `s` made of radix-`radix` digits (step 11). */
  function DigitPrefixLength(s: string, radix: nat): (n: nat)
    ensures n <= |s|
    ensures forall i :: 0 <= i < n ==> IsRadixDigit(s[i], radix)
    ensures n < |s| ==> !IsRadixDigit(s[n], radix)
  {
    if s != [] && IsRadixDigit(s[0], radix) then 1 + DigitPrefixLength(s[1..], radix) else 0
  }

  /** The mathematical value of a string of radix-`radix` digits, most significant first (step 14). */
  function DigitsValue(z: string, radix: nat): nat
    requires forall i :: 0 <= i < |z| ==> IsRadixDigit(z[i], radix)
  {
    if z == [] then 0 else DigitsValue(z[..|z| - 1], radix) * radix + DigitValue(z[|z| - 1])
  }

  /**
   * Steps 10 to 14 on the text after the sign: a "0x" or "0X" prefix
   * switches to radix 16 (radix 10 otherwise), then the longest run of
   * digits is read; an empty run gives None.
   */
  function ParseMagnitude(unsigned: string): Option<nat> {
    var hex := HasHexPrefix(unsigned);
    var radix := if hex then 16 else 10;
    var body := if hex then unsigned[2..] else unsigned;
    var end := DigitPrefixLength(body, radix);
    if end == 0 then None else Some(DigitsValue(body[..end], radix))
  }

  /** The text after the leading white space and at most one sign (steps 2 to 5). */
  function Unsigned(input: string): (u: string)
    ensures |u| <= |input|
  {
    var trimmed := TrimStart(input);
    if trimmed != [] && (trimmed[0] == '+' || trimmed[0] == '-') then trimmed[1..] else trimmed
  }

  /** The text starts with "0x" or "0X". */
  predicate HasHexPrefix(u: string) {
    |u| >= 2 && u[0] == '0' && (u[1] == 'x' || u[1] == 'X')
  }

  /**
   * `parseInt(input)`: skip leading white space, take one optional sign,
   * then read the magnitude; NaN when no digit follows. A number comes out
   * only when a decimal digit follows the sign, and always then unless that
   * digit begins a "0x" prefix; a negative number only after a minus sign.
   */
  function ParseInt(input: string): (r: Number)
    ensures r.Finite? ==> Unsigned(input) != [] && IsRadixDigit(Unsigned(input)[0], 10)
    ensures Unsigned(input) != [] && IsRadixDigit(Unsigned(input)[0], 10) && !HasHexPrefix(Unsigned(input)) ==> r.Finite?
    ensures r.Finite? && r.value < 0 ==> TrimStart(input)[0] == '-'
  {
    var trimmed := TrimStart(input);
    var sign := if trimmed != [] && trimmed[0] == '-' then -1 else 1;
    match ParseMagnitude(Unsigned(input))
    case None => NaN
    case Some(v) => Finite(sign * v)
  }

  /**
   * `parseInt(v) || 0`: NaN and zero both become 0, any other value is
   * kept. A non-zero limit is stored only when a decimal digit follows the
   * leading white space and sign of the typed text.
   */
  function CoerceUserLimit(v: string): (r: int)
    ensures r != 0 ==> ParseInt(v) == Finite(r)
    ensures r == 0 <==> ParseInt(v) == NaN || ParseInt(v) == Finite(0)
    ensures r != 0 ==> Unsigned(v) != [] && IsRadixDigit(Unsigned(v)[0], 10)
  {
    match ParseInt(v)
    case NaN => 0
    case Finite(n) => n
  }

  /** The decimal digit character for 0 <= d < 10. */
  function DecimalDigit(d: nat): (c: char)
    requires d < 10
    ensures IsRadixDigit(c, 10) && DigitValue(c) == d
  {
    ('0' as int + d) as char
  }

  /** The decimal numeral of a natural number, without leading zeros. */
  function NatToDecimal(n: nat): (s: string)
    ensures |s| > 0
    ensures forall i :: 0 <= i < |s| ==> IsRadixDigit(s[i], 10)
    ensures s[0] == '0' <==> n == 0
    ensures n == 0 ==> s == "0"
  {
    if n < 10 then [DecimalDigit(n)] else NatToDecimal(n / 10) + [DecimalDigit(n % 10)]
  }

  /** How an integer is shown in the number input (`Number::toString`, for integers below 10^21 in magnitude). */
  function IntToDecimal(n: int): (s: string)
    ensures |s| > 0 && (s[0] == '-' || IsRadixDigit(s[0], 10))
  {
    if n < 0 then "-" + NatToDecimal(-n) else NatToDecimal(n)
  }

  /** Reading back the numeral of a natural number gives that number. */
  lemma {:induction false} NatToDecimalValue(n: nat)
    ensures DigitsValue(NatToDecimal(n), 10) == n
  {
    var s := NatToDecimal(n);
    if n >= 10 {
      NatToDecimalValue(n / 10);
      assert s[..|s| - 1] == NatToDecimal(n / 10);
    }
  }

  /** On a string that starts with a run of digits, the run ends where the digits end. */
  lemma {:induction false} DigitPrefixOfDigits(d: string, rest: string, radix: nat)
    requires forall i :: 0 <= i < |d| ==> IsRadixDigit(d[i], radix)
    requires rest == [] || !IsRadixDigit(rest[0], radix)
    ensures DigitPrefixLength(d + rest, radix) == |d|
  {
    if d == [] {
      assert d + rest == rest;
    } else {
      assert (d + rest)[1..] == d[1..] + rest;
      DigitPrefixOfDigits(d[1..], rest, radix);
    }
  }

  /** The magnitude read from a numeral followed by text that neither continues it nor makes it a "0x" prefix. */
  lemma ParseMagnitudeOfDecimal(m: nat, rest: string)
    requires rest == [] || !IsRadixDigit(rest[0], 10)
    requires m == 0 ==> rest == [] || (rest[0] != 'x' && rest[0] != 'X')
    ensures ParseMagnitude(NatToDecimal(m) + rest) == Some(m)
  {
    var d := NatToDecimal(m);
    var unsigned := d + rest;
    assert !(|unsigned| >= 2 && unsigned[0] == '0' && (unsigned[1] == 'x' || unsigned[1] == 'X')) by {
      if |unsigned| >= 2 && unsigned[0] == '0' {
        assert d[0] == '0';
        assert unsigned[1] == rest[0];
      }
    }
    DigitPrefixOfDigits(d, rest, 10);
    assert unsigned[..|d|] == d;
    NatToDecimalValue(m);
  }

  /**
   * parseInt reads back the numeral of any integer, whatever text follows
   * it, provided that text does not continue the digits and does not turn a
   * leading "0" into the hexadecimal prefix "0x".
   */
  lemma ParseIntOfDecimal(n: int, rest: string)
    requires rest == [] || !IsRadixDigit(rest[0], 10)
    requires n == 0 ==> rest == [] || (rest[0] != 'x' && rest[0] != 'X')
    ensures ParseInt(IntToDecimal(n) + rest) == Finite(n)
  {
    var m: nat := if n < 0 then -n else n;
    var u := NatToDecimal(m) + rest;
    ParseMagnitudeOfDecimal(m, rest);
    assert u[0] == NatToDecimal(m)[0];
    if n < 0 {
      assert IntToDecimal(n) + rest == "-" + u;
      ParseIntSigned(u);
    } else {
      assert IntToDecimal(n) + rest == u;
      ParseIntUnsigned(u);
    }
  }

  /** Text that starts with a digit is read as a non-negative magnitude. */
  lemma ParseIntUnsigned(u: string)
    requires u != [] && IsRadixDigit(u[0], 10)
    ensures ParseInt(u) == match ParseMagnitude(u) case None => NaN case Some(v) => Finite(v)
  {
    assert TrimStart(u) == u;
  }

  /** A minus sign followed by a digit negates the magnitude read after it. */
  lemma ParseIntSigned(u: string)
    requires u != [] && IsRadixDigit(u[0], 10)
    ensures ParseInt("-" + u) == match ParseMagnitude(u) case None => NaN case Some(v) => Finite(-(v as int))
  {
    var input := "-" + u;
    assert input[0] == '-' && !IsStrWhiteSpaceChar(input[0]);
    assert TrimStart(input) == input;
    assert input[1..] == u;
    assert ParseInt(input) == match ParseMagnitude(u) case None => NaN case Some(v) => Finite(-1 * v);
  }

  /** Typing the shown value of an integer back into the user-limit field stores that integer, negative ones included. */
  lemma CoerceUserLimitOfDecimal(n: int)
    ensures CoerceUserLimit(IntToDecimal(n)) == n
  {
    ParseIntOfDecimal(n, []);
    assert IntToDecimal(n) + [] == IntToDecimal(n);
  }

  /** Text that starts with neither white space, a sign nor a digit (the empty text included) is NaN, so its coercion is 0. */
  lemma ParseIntNoDigit(u: string)
    requires u == [] || !(IsStrWhiteSpaceChar(u[0]) || u[0] == '+' || u[0] == '-' || IsRadixDigit(u[0], 10))
    ensures ParseInt(u) == NaN && CoerceUserLimit(u) == 0
  {
    assert TrimStart(u) == u;
  }

  /** The prefix "0x" with no hexadecimal digit after it is NaN, not 0, though its coercion is 0 all the same. */
  lemma ParseIntHexPrefixWithoutDigits(t: string)
    requires t == [] || !IsRadixDigit(t[0], 16)
    ensures ParseInt("0x" + t) == NaN && CoerceUserLimit("0x" + t) == 0
  {
    var u := "0x" + t;
    assert u[0] == '0' && u[1] == 'x';
    assert TrimStart(u) == u;
    assert u[2..] == t;
  }

  /** A hexadecimal numeral is read in radix 16: "0x1A" gives 26. */
  lemma ParseIntHex()
    ensures ParseInt("0x1A") == Finite(26)
  {
    var u := "0x1A";
    assert TrimStart(u) == u;
    assert u[2..] == "1A";
    DigitPrefixOfDigits("1A", [], 16);
    assert "1A" + [] == "1A";
    assert DigitPrefixLength("1A", 16) == 2;
    assert "1A"[..2] == "1A" && "1A"[..1] == "1" && "1"[..0] == [];
    assert DigitsValue("1", 16) == 1;
    assert DigitsValue("1A", 16) == 26;
    assert ParseMagnitude(u) == Some(26);
  }

  /** The coercion keeps a leading minus sign: the stored limit can be negative. */
  lemma CoerceUserLimitNegative()
    ensures CoerceUserLimit("-25") == -25
  {
    CoerceUserLimitOfDecimal(-25);
    assert IntToDecimal(-25) == "-25";
  }
}
