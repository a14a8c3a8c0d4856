/**
 * The global `parseInt(string)` of ECMAScript (section 19.2.5 of ECMA-262) called with no radix, as the
 * product routes apply it to the `:id` path parameter, and the decimal rendering of integers that the
 * payment code uses when it turns numbers into strings.
 */
module JsParseInt {

  /**
   * The number `parseInt` returns: an integer or NaN. A negative zero is folded into 0: the only use of
   * the result is a strict-equality test, and `-0 === 0` holds.
   */
  datatype ParsedNumber = Int(value: int) | NaN

  /**
   * The characters `parseInt` strips from the front: WhiteSpace and LineTerminator of ECMA-262. Tab,
   * line feed, vertical tab, form feed and carriage return are the range U+0009..U+000D.
   */
  predicate IsWhiteSpace(c: char) {
    ('\t' <= c <= '\r') || c == ' ' || (c >= '\U{00A0}' && IsWideWhiteSpace(c))
  }

  /** The white space above U+007F: no-break space, Unicode space separators, LS, PS and the BOM. */
  predicate IsWideWhiteSpace(c: char) {
    || c == '\U{00A0}' || c == '\U{1680}' || ('\U{2000}' <= c <= '\U{200A}')
    || c == '\U{2028}' || c == '\U{2029}' || c == '\U{202F}' || c == '\U{205F}' || c == '\U{3000}'
    || c == '\U{FEFF}'
  }

  /** The value of `c` as a digit in any radix up to 36, if it is one. */
  function CharDigit(c: char): (d: int)
    ensures -1 <= d < 36
  {
    if '0' <= c <= '9' then c as int - '0' as int
    else if 'a' <= c <= 'z' then c as int - 'a' as int + 10
    else if 'A' <= c <= 'Z' then c as int - 'A' as int + 10
    else -1
  }

  predicate IsDigit(c: char, radix: nat) {
    0 <= CharDigit(c) < radix
  }

  predicate AllDigits(s: string, radix: nat) {
    forall i :: 0 <= i < |s| ==> IsDigit(s[i], radix)
  }

  /** `s` without its leading white space. */
  function TrimStart(s: string): (t: string)
    ensures |t| <= |s| && t == s[|s| - |t|..]
    ensures t == [] || !IsWhiteSpace(t[0])
  {
    if s != [] && IsWhiteSpace(s[0]) then TrimStart(s[1..]) else s
  }

  /** What `TrimStart` drops is white space, and only white space. */
  lemma {:induction false} TrimStartDropsOnlyWhiteSpace(s: string)
    ensures forall i :: 0 <= i < |s| - |TrimStart(s)| ==> IsWhiteSpace(s[i])
  {
    if s != [] && IsWhiteSpace(s[0]) {
      TrimStartDropsOnlyWhiteSpace(s[1..]);
      assert forall i :: 1 <= i < |s| - |TrimStart(s)| ==> s[i] == s[1..][i - 1];
    }
  }

  /** Length of the longest prefix of `s` made of radix-`radix` digits. */
  function DigitRunLength(s: string, radix: nat): (k: nat)
    ensures k <= |s|
    ensures AllDigits(s[..k], radix)
    ensures k < |s| ==> !IsDigit(s[k], radix)
  {
    if s == [] || !IsDigit(s[0], radix) then 0
    else
      var k := 1 + DigitRunLength(s[1..], radix);
      assert s[..k] == [s[0]] + s[1..][..k - 1];
      k
  }

  /** The number a string of digits denotes, most significant digit first. */
  function DigitsValue(s: string, radix: nat): nat
    requires AllDigits(s, radix)
  {
    if s == [] then 0
    else DigitsValue(s[..|s| - 1], radix) * radix + CharDigit(s[|s| - 1])
  }

  /**
   * What `parseInt` reads once white space and sign are gone: radix 16 after a `0x` or `0X`, radix 10
   * otherwise, then the longest run of digits; no digit at all gives NaN.
   */
  function ParseUnsigned(u: string): ParsedNumber {
    var hex := |u| >= 2 && u[0] == '0' && (u[1] == 'x' || u[1] == 'X');
    var radix := if hex then 16 else 10;
    var digits := if hex then u[2..] else u;
    var k := DigitRunLength(digits, radix);
    if k == 0 then NaN else Int(DigitsValue(digits[..k], radix))
  }

  /** Reading after the white space: an optional sign, then the unsigned part. */
  function ParseSigned(t: string): ParsedNumber {
    if t != [] && t[0] == '-' then
      match ParseUnsigned(t[1..])
      case Int(m) => Int(-m)
      case NaN => NaN
    else if t != [] && t[0] == '+' then ParseUnsigned(t[1..])
    else ParseUnsigned(t)
  }

  /** `parseInt(s)`: skip white space, take an optional sign, read the unsigned part. */
  function ParseInt(s: string): ParsedNumber {
    ParseSigned(TrimStart(s))
  }

  function DigitChar(d: nat): (c: char)
    requires d < 10
    ensures IsDigit(c, 10) && CharDigit(c) == d
  {
    ('0' as int + d) as char
  }

  /** Decimal numeral of a natural number, without leading zeros. */
  function ShowNat(n: nat): (s: string)
    ensures |s| >= 1 && AllDigits(s, 10)
    ensures s[0] == '0' <==> n == 0
    ensures n == 0 ==> s == "0"
  {
    if n < 10 then [DigitChar(n)] else ShowNat(n / 10) + [DigitChar(n % 10)]
  }

  /** Decimal numeral of an integer, with a leading '-' when it is negative (as `String(n)` writes it). */
  function ShowInt(n: int): (s: string)
    ensures |s| >= 1 && (s[0] == '-' || IsDigit(s[0], 10))
  {
    if n < 0 then "-" + ShowNat(-n) else ShowNat(n)
  }

  /** Reading back a decimal numeral gives the number it was written from. */
  lemma {:induction false} DigitsValueOfShowNat(n: nat)
    ensures DigitsValue(ShowNat(n), 10) == n
  {
    var s := ShowNat(n);
    if n >= 10 {
      var p := ShowNat(n / 10);
      assert s == p + [DigitChar(n % 10)];
      assert s[..|s| - 1] == p;
      DigitsValueOfShowNat(n / 10);
    }
  }

  /** A run of digits followed by a string that does not start with one has exactly the run's length. */
  lemma {:induction false} DigitRunOfConcat(a: string, b: string, radix: nat)
    requires AllDigits(a, radix)
    ensures DigitRunLength(a + b, radix) == |a| + DigitRunLength(b, radix)
  {
    if a != [] {
      assert (a + b)[1..] == a[1..] + b;
      DigitRunOfConcat(a[1..], b, radix);
    } else {
      assert a + b == b;
    }
  }

  /** Leading white space never changes what `parseInt` reads. */
  lemma {:induction false} TrimStartSkipsWhiteSpace(ws: string, s: string)
    requires forall i :: 0 <= i < |ws| ==> IsWhiteSpace(ws[i])
    ensures TrimStart(ws + s) == TrimStart(s)
  {
    if ws == [] {
      assert ws + s == s;
    } else {
      assert (ws + s)[0] == ws[0];
      assert (ws + s)[1..] == ws[1..] + s;
      TrimStartSkipsWhiteSpace(ws[1..], s);
    }
  }

  lemma ParseIntSkipsLeadingWhiteSpace(ws: string, s: string)
    requires forall i :: 0 <= i < |ws| ==> IsWhiteSpace(ws[i])
    ensures ParseInt(ws + s) == ParseInt(s)
  {
    TrimStartSkipsWhiteSpace(ws, s);
  }

  /** The unsigned reading of a numeral followed by `rest`, under the conditions of the lemma below. */
  lemma ParseUnsignedOfNumeralPrefix(m: nat, rest: string)
    requires rest == [] || !IsDigit(rest[0], 10)
    requires m == 0 ==> rest == [] || (rest[0] != 'x' && rest[0] != 'X')
    ensures ParseUnsigned(ShowNat(m) + rest) == Int(m)
  {
    var d := ShowNat(m);
    var u := d + rest;
    assert u[0] == d[0];
    if m == 0 {
      assert u == "0" + rest;
    }
    DigitRunOfConcat(d, rest, 10);
    assert u[..|d|] == d;
    DigitsValueOfShowNat(m);
  }

  /** A string that starts with a digit is read by `parseInt` as its unsigned part. */
  lemma ParseIntOfDigitLed(u: string)
    requires u != [] && IsDigit(u[0], 10)
    ensures ParseInt(u) == ParseUnsigned(u)
  {
    assert !IsWhiteSpace(u[0]);
  }

  /** A '-' followed by a digit makes `parseInt` negate the unsigned reading of the rest. */
  lemma ParseIntOfMinus(u: string, m: nat)
    requires u != [] && IsDigit(u[0], 10)
    requires ParseUnsigned(u) == Int(m)
    ensures ParseInt(['-'] + u) == Int(-(m as int))
  {
    var s := ['-'] + u;
    assert s[0] == '-' && s[1..] == u;
    assert !IsWhiteSpace(s[0]);
  }

  /**
   * `parseInt` reads the decimal numeral of `n` back as `n`, whatever follows it, provided what follows
   * neither continues the digits nor, after a lone "0", turns the numeral into a hexadecimal prefix.
   */
  lemma ParseIntOfNumeralPrefix(n: int, rest: string)
    requires rest == [] || !IsDigit(rest[0], 10)
    requires n == 0 ==> rest == [] || (rest[0] != 'x' && rest[0] != 'X')
    ensures ParseInt(ShowInt(n) + rest) == Int(n)
  {
    if n < 0 {
      var u := ShowNat(-n) + rest;
      assert ShowInt(n) + rest == ['-'] + u;
      assert u != [] && IsDigit(u[0], 10) by {
        assert u[0] == ShowNat(-n)[0];
      }
      ParseUnsignedOfNumeralPrefix(-n, rest);
      ParseIntOfMinus(u, -n);
    } else {
      var u := ShowNat(n) + rest;
      assert ShowInt(n) + rest == u;
      assert u != [] && IsDigit(u[0], 10) by {
        assert u[0] == ShowNat(n)[0];
      }
      ParseUnsignedOfNumeralPrefix(n, rest);
      ParseIntOfDigitLed(u);
    }
  }

  /** Round trip: `parseInt` inverts the decimal rendering of every integer. */
  lemma ParseIntOfShowInt(n: int)
    ensures ParseInt(ShowInt(n)) == Int(n)
  {
    ParseIntOfNumeralPrefix(n, []);
    assert ShowInt(n) + [] == ShowInt(n);
  }

  /**
   * A `0x` or `0X` prefix followed by hexadecimal digits is read in radix 16, up to the first character
   * that is not a hexadecimal digit.
   */
  lemma ParseIntOfHexNumeral(x: char, d: string, rest: string)
    requires x == 'x' || x == 'X'
    requires |d| > 0 && AllDigits(d, 16)
    requires rest == [] || !IsDigit(rest[0], 16)
    ensures ParseInt(['0', x] + (d + rest)) == Int(DigitsValue(d, 16))
  {
    var s := ['0', x] + (d + rest);
    assert s[0] == '0';
    ParseIntOfDigitLed(s);
    ParseUnsignedOfHex(x, d, rest);
  }

  lemma DropPrefix(p: string, w: string)
    ensures (p + w)[|p|..] == w
  {
  }

  lemma ParseUnsignedOfHex(x: char, d: string, rest: string)
    requires x == 'x' || x == 'X'
    requires |d| > 0 && AllDigits(d, 16)
    requires rest == [] || !IsDigit(rest[0], 16)
    ensures ParseUnsigned(['0', x] + (d + rest)) == Int(DigitsValue(d, 16))
  {
    var u := ['0', x] + (d + rest);
    assert |u| >= 2 && u[0] == '0' && u[1] == x;
    var digits := u[2..];
    DropPrefix(['0', x], d + rest);
    DigitRunOfConcat(d, rest, 16);
    var k := DigitRunLength(digits, 16);
    assert k == |d|;
    assert digits[..k] == d;
  }

  /**
   * `parseInt` is NaN whenever, after the white space and an optional sign, the text does not start with
   * a decimal digit.
   */
  lemma ParseIntNaNWithoutLeadingDigit(s: string)
    requires var t := TrimStart(s);
      var u := if t != [] && (t[0] == '-' || t[0] == '+') then t[1..] else t;
      u == [] || !IsDigit(u[0], 10)
    ensures ParseInt(s) == NaN
  {
    var t := TrimStart(s);
    var u := if t != [] && (t[0] == '-' || t[0] == '+') then t[1..] else t;
    assert DigitRunLength(u, 10) == 0;
    assert ParseUnsigned(u) == NaN by {
      assert !(|u| >= 2 && u[0] == '0');
    }
  }

  lemma ParseIntOfEmpty()
    ensures ParseInt("") == NaN
  {
    assert TrimStart("") == "";
    assert DigitRunLength("", 10) == 0;
  }

  lemma ParseIntOfLetters()
    ensures ParseInt("abc") == NaN
  {
    var s := "abc";
    assert s[0] == 'a' && !IsWhiteSpace(s[0]);
    assert TrimStart(s) == s;
    assert !IsDigit(s[0], 10);
    assert DigitRunLength(s, 10) == 0;
  }

  lemma ParseIntOfHex()
    ensures ParseInt("0x10") == Int(16)
    ensures ParseInt("0x") == NaN
  {
    var s := "0x10";
    assert s[0] == '0' && s[1] == 'x' && !IsWhiteSpace(s[0]);
    assert TrimStart(s) == s;
    var d := s[2..];
    assert d == "10";
    assert DigitRunLength(d, 16) == 2 by {
      DigitRunOfConcat(d, [], 16);
      assert d + [] == d;
    }
    assert d[..2] == d;
    assert DigitsValue(d, 16) == 16 by {
      assert d[..1] == "1";
      assert DigitsValue("1", 16) == 1 by {
        assert "1"[..0] == [];
      }
    }
    var e := "0x";
    assert e[0] == '0' && e[1] == 'x' && !IsWhiteSpace(e[0]);
    assert TrimStart(e) == e;
    assert e[2..] == [];
    assert DigitRunLength(e[2..], 16) == 0;
  }

  /** Text after the numeral is dropped. */
  lemma ParseIntOfTrailingText()
    ensures ParseInt("2abc") == Int(2)
  {
    var rest := "abc";
    assert rest[0] == 'a' && !IsDigit(rest[0], 10);
    ParseIntOfNumeralPrefix(2, rest);
    assert ShowInt(2) == "2" by {
      assert ShowNat(2) == [DigitChar(2)];
    }
    assert "2" + rest == "2abc";
  }

  /** White space before a signed numeral is skipped. */
  lemma ParseIntOfSpacedNegative()
    ensures ParseInt(" -7") == Int(-7)
  {
    var u := ['-'] + ShowNat(7);
    assert ParseInt(u) == Int(-7) by {
      ParseUnsignedOfNumeralPrefix(7, []);
      assert ShowNat(7) + [] == ShowNat(7);
      ParseIntOfMinus(ShowNat(7), 7);
    }
    assert " " + u == " -7" by {
      assert ShowNat(7) == [DigitChar(7)];
    }
    ParseIntSkipsLeadingWhiteSpace(" ", u);
  }
}
