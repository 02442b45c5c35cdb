/**
 * JavaScript's global `parseInt(string)` without a radix argument, as
 * section 19.2.5 of ECMA-262 defines it: skip leading white space, read
 * an optional sign, read a hexadecimal number after "0x" or "0X" and a
 * decimal one otherwise, stop at the first character that is not a digit,
 * and give NaN (here `None`) when there is no digit at all.
 */
module JsParseInt {
  import opened Wrappers

  /** ECMAScript's WhiteSpace and LineTerminator characters. */
  predicate IsJsWhitespace(c: char) {
    var n := c as int;
    n == 0x09 || n == 0x0B || n == 0x0C || n == 0x20 || n == 0xA0 || n == 0xFEFF
    || n == 0x0A || n == 0x0D || n == 0x2028 || n == 0x2029
    || n == 0x1680 || (0x2000 <= n <= 0x200A) || n == 0x202F || n == 0x205F || n == 0x3000
  }

  /** The string without its leading white space. */
  function TrimStart(s: string): (r: string)
    ensures |r| <= |s| && r == s[|s| - |r|..]
    ensures forall i :: 0 <= i < |s| - |r| ==> IsJsWhitespace(s[i])
    ensures r == [] || !IsJsWhitespace(r[0])
  {
    if s != [] && IsJsWhitespace(s[0]) then TrimStart(s[1..]) else s
  }

  /** The value of a digit character: 0-9, then a-z / A-Z as 10-35; 36 for anything else. */
  function DigitValue(c: char): nat {
    if '0' <= c <= '9' then c as int - '0' as int
    else if 'a' <= c <= 'z' then c as int - 'a' as int + 10
    else if 'A' <= c <= 'Z' then c as int - 'A' as int + 10
    else 36
  }

  /** How many leading characters of `s` are digits in `radix`. */
  function DigitPrefixLength(s: string, radix: nat): (n: nat)
    ensures n <= |s|
    ensures forall i :: 0 <= i < n ==> DigitValue(s[i]) < radix
    ensures n < |s| ==> DigitValue(s[n]) >= radix
  {
    if s != [] && DigitValue(s[0]) < radix then 1 + DigitPrefixLength(s[1..], radix) else 0
  }

  /** The number the digits `z` denote in `radix`, most significant first. */
  function DigitsValue(z: string, radix: nat): nat {
    if z == [] then 0 else DigitsValue(z[..|z| - 1], radix) * radix + DigitValue(z[|z| - 1])
  }

  /** `parseInt(input)`; `None` stands for NaN. */
  function ParseInt(input: string): Option<int> {
    ParseSigned(TrimStart(input))
  }

  /** An optional sign, then the digits. */
  function ParseSigned(s: string): Option<int> {
    if s != [] && s[0] == '-' then
      match ParseUnsigned(s[1..])
      case Some(v) => Some(-(v as int))
      case None => None
    else ParseUnsigned(if s != [] && s[0] == '+' then s[1..] else s)
  }

  /** The longest run of digits, hexadecimal after "0x" or "0X", decimal otherwise. */
  function ParseUnsigned(s: string): Option<nat> {
    var hex := |s| >= 2 && s[0] == '0' && (s[1] == 'x' || s[1] == 'X');
    var radix := if hex then 16 else 10;
    var body := if hex then s[2..] else s;
    var end := DigitPrefixLength(body, radix);
    if end == 0 then None else Some(DigitsValue(body[..end], radix))
  }

  /** The decimal digit for 0..9. */
  function DigitChar(d: nat): (c: char)
    requires d < 10
    ensures DigitValue(c) == d
  {
    ('0' as int + d) as char
  }

  /** The decimal numeral of `n`, without leading zeros. */
  function DecimalString(n: nat): (s: string)
    ensures s != []
    ensures forall i :: 0 <= i < |s| ==> DigitValue(s[i]) < 10
    ensures s[0] == '0' ==> n == 0 && s == "0"
  {
    if n < 10 then [DigitChar(n)] else DecimalString(n / 10) + [DigitChar(n % 10)]
  }

  lemma {:induction false} DecimalStringValue(n: nat)
    ensures DigitsValue(DecimalString(n), 10) == n
  {
    if n >= 10 {
      DecimalStringValue(n / 10);
      var s := DecimalString(n);
      assert s[..|s| - 1] == DecimalString(n / 10);
    }
  }

  lemma {:induction false} DigitPrefixOfDigits(a: string, t: string, radix: nat)
    requires forall i :: 0 <= i < |a| ==> DigitValue(a[i]) < radix
    requires t == [] || DigitValue(t[0]) >= radix
    ensures DigitPrefixLength(a + t, radix) == |a|
  {
    if a == [] {
      assert a + t == t;
    } else {
      assert (a + t)[0] == a[0] && (a + t)[1..] == a[1..] + t;
      DigitPrefixOfDigits(a[1..], t, radix);
    }
  }

  /**
   * A decimal numeral reads back as its number, also with text after it
   * that does not start with a digit, nor with x/X after a lone "0"
   * (which would make it hexadecimal).
   */
  lemma UnsignedDecimal(n: nat, t: string)
    requires t == [] || DigitValue(t[0]) >= 10
    requires n == 0 && t != [] ==> t[0] != 'x' && t[0] != 'X'
    ensures ParseUnsigned(DecimalString(n) + t) == Some(n)
  {
    var d := DecimalString(n);
    var s := d + t;
    var hex := |s| >= 2 && s[0] == '0' && (s[1] == 'x' || s[1] == 'X');
    assert !hex by {
      if |s| >= 2 && s[0] == '0' {
        assert d[0] == '0';
        assert d == "0" && s[1] == t[0];
      }
    }
    DigitPrefixOfDigits(d, t, 10);
    assert s[..|d|] == d;
    DecimalStringValue(n);
  }

  /** A decimal digit is neither white space nor a sign. */
  lemma DigitIsPlain(c: char)
    requires DigitValue(c) < 10
    ensures '0' <= c <= '9'
    ensures !IsJsWhitespace(c) && c != '-' && c != '+'
  {
  }

  /** A string starting with a decimal digit is read unsigned and untrimmed. */
  lemma ParseFromDigit(s: string)
    requires s != [] && DigitValue(s[0]) < 10
    ensures ParseInt(s) == ParseUnsigned(s)
  {
    DigitIsPlain(s[0]);
    assert TrimStart(s) == s;
    assert ParseSigned(s) == ParseUnsigned(s);
  }

  lemma ParseDecimal(n: nat, t: string)
    requires t == [] || DigitValue(t[0]) >= 10
    requires n == 0 && t != [] ==> t[0] != 'x' && t[0] != 'X'
    ensures ParseInt(DecimalString(n) + t) == Some(n)
  {
    var d := DecimalString(n);
    var s := d + t;
    assert s[0] == d[0];
    ParseFromDigit(s);
    UnsignedDecimal(n, t);
  }

  /** A minus sign in front negates the number. */
  lemma ParseNegative(n: nat)
    ensures ParseInt("-" + DecimalString(n)) == Some(-(n as int))
  {
    var d := DecimalString(n);
    var s := "-" + d;
    assert TrimStart(s) == s by {
      assert !IsJsWhitespace(s[0]);
    }
    assert ParseUnsigned(s[1..]) == Some(n) by {
      assert s[1..] == d + [];
      UnsignedDecimal(n, []);
    }
  }

  /** Leading white space is skipped. */
  lemma ParseSkipsWhitespace(c: char, s: string)
    requires IsJsWhitespace(c)
    ensures ParseInt([c] + s) == ParseInt(s)
  {
    assert ([c] + s)[1..] == s;
    assert TrimStart([c] + s) == TrimStart(s);
  }

  /** A string that does not start with a digit, a sign, white space or "0x" is NaN. */
  lemma ParseNoDigit(s: string)
    requires s != [] && DigitValue(s[0]) >= 10 && s[0] != '+' && s[0] != '-' && !IsJsWhitespace(s[0])
    ensures ParseInt(s) == None
  {
  }
}
