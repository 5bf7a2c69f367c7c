/** CSS pixel lengths as main.js writes and reads them: a position `n` is
    stored in an element's style as the template string `${n}px` and read
    back with JavaScript's global `parseInt`. */
module PxStyle {

  datatype Option<T> = None | Some(value: T)

  // ----- Digits -----

  /** The value of an ASCII alphanumeric character as a digit in radix up
      to 36 ('0'..'9', then 'a'..'z' or 'A'..'Z'), as parseInt reads it. */
  function CharValue(c: char): Option<nat>
  {
    if '0' <= c <= '9' then Some(c as int - '0' as int)
    else if 'a' <= c <= 'z' then Some(c as int - 'a' as int + 10)
    else if 'A' <= c <= 'Z' then Some(c as int - 'A' as int + 10)
    else None
  }

  predicate IsDigitIn(c: char, radix: nat)
  {
    CharValue(c).Some? && CharValue(c).value < radix
  }

  predicate AllDigitsIn(s: string, radix: nat)
  {
    forall i :: 0 <= i < |s| ==> IsDigitIn(s[i], radix)
  }

  /** The decimal digit character for `d`. */
  function DigitChar(d: nat): (c: char)
    requires d < 10
    ensures IsDigitIn(c, 10) && CharValue(c).value == d
  {
    ('0' as int + d) as char
  }

  // ----- Number to string: the template literal `${n}` -----

  /** Decimal numeral of a natural number, most significant digit first,
      without leading zeros. */
  function NatDigits(n: nat): (s: string)
    ensures |s| >= 1 && AllDigitsIn(s, 10)
    ensures s[0] == '0' <==> n == 0
    ensures |s| == 1 <==> n < 10
    decreases n
  {
    if n < 10 then [DigitChar(n)] else NatDigits(n / 10) + [DigitChar(n % 10)]
  }

  /** JavaScript's `${n}` for an integral number: a minus sign before the
      numeral of a negative value. */
  function IntString(n: int): string
  {
    if n < 0 then "-" + NatDigits(-n) else NatDigits(n)
  }

  /** The style value written for position `n` (main.js:66-69, 111, 114,
      123, 126). */
  function Px(n: int): string
  {
    IntString(n) + "px"
  }

  // ----- String to number: parseInt(s) with no radix argument -----

  /** The white space and line terminators parseInt skips before a number. */
  predicate IsSpace(c: char)
  {
    c in {' ', '\t', '\n', '\r', '\U{000B}', '\U{000C}', '\U{00A0}', '\U{1680}',
          '\U{2028}', '\U{2029}', '\U{202F}', '\U{205F}', '\U{3000}', '\U{FEFF}'}
    || '\U{2000}' <= c <= '\U{200A}'
  }

  function TrimStart(s: string): (t: string)
    ensures |t| <= |s| && t == s[|s| - |t|..]
    ensures |t| > 0 ==> !IsSpace(t[0])
  {
    if |s| > 0 && IsSpace(s[0]) then TrimStart(s[1..]) else s
  }

  /** The longest prefix of `s` made of digits of `radix`. */
  function DigitPrefix(s: string, radix: nat): (ds: string)
    ensures AllDigitsIn(ds, radix) && ds <= s
  {
    if |s| > 0 && IsDigitIn(s[0], radix) then [s[0]] + DigitPrefix(s[1..], radix) else []
  }

  /** The value of a numeral in `radix`, most significant digit first. */
  function Value(ds: string, radix: nat): nat
    requires AllDigitsIn(ds, radix)
  {
    if ds == [] then 0
    else Value(ds[..|ds| - 1], radix) * radix + CharValue(ds[|ds| - 1]).value
  }

  /** The number at the head of an unsigned numeral: radix 16 after a
      "0x"/"0X" prefix, radix 10 otherwise; `None` when no digit follows. */
  function ParseUnsigned(s: string): Option<nat>
  {
    var hex := |s| >= 2 && s[0] == '0' && (s[1] == 'x' || s[1] == 'X');
    var radix := if hex then 16 else 10;
    var ds := DigitPrefix(if hex then s[2..] else s, radix);
    if ds == [] then None else Some(Value(ds, radix))
  }

  /** The number at the head of a string that starts with no white space:
      an optional sign, then an unsigned numeral. */
  function ParseSigned(t: string): Option<int>
  {
    var negative := |t| > 0 && t[0] == '-';
    var unsigned := if |t| > 0 && (t[0] == '-' || t[0] == '+') then t[1..] else t;
    match ParseUnsigned(unsigned)
    case None => None
    case Some(v) =>
      var n: int := v;
      Some(if negative then -n else n)
  }

  /** parseInt(s) with no radix argument: skip leading white space, take an
      optional sign, then read the number that follows; `None` stands for
      NaN. */
  function ParseInt(s: string): Option<int>
  {
    ParseSigned(TrimStart(s))
  }

  // ----- Round trip -----

  lemma {:induction false} PrefixOfNumeral(ds: string, rest: string, radix: nat)
    requires AllDigitsIn(ds, radix)
    requires rest == [] || !IsDigitIn(rest[0], radix)
    ensures DigitPrefix(ds + rest, radix) == ds
    decreases |ds|
  {
    if ds == [] {
      assert ds + rest == rest;
    } else {
      assert (ds + rest)[1..] == ds[1..] + rest;
      PrefixOfNumeral(ds[1..], rest, radix);
      assert [ds[0]] + ds[1..] == ds;
    }
  }

  lemma {:induction false} ValueOfNatDigits(n: nat)
    ensures Value(NatDigits(n), 10) == n
    decreases n
  {
    var s := NatDigits(n);
    if n >= 10 {
      ValueOfNatDigits(n / 10);
      assert s[..|s| - 1] == NatDigits(n / 10);
    }
  }

  lemma ParseUnsignedNumeral(m: nat)
    ensures ParseUnsigned(NatDigits(m) + "px") == Some(m)
  {
    var digits := NatDigits(m);
    var s := digits + "px";
    assert s[0] == digits[0];
    assert s[0] == '0' ==> |digits| == 1 && s[1] == 'p';
    PrefixOfNumeral(digits, "px", 10);
    ValueOfNatDigits(m);
  }

  /** A string that starts with a sign or a decimal digit has no leading
      white space to skip. */
  lemma TrimStartNumeral(s: string)
    requires |s| > 0 && (s[0] == '-' || IsDigitIn(s[0], 10))
    ensures TrimStart(s) == s
  {
    assert !IsSpace(s[0]);
  }

  /** A string that starts with a sign or a decimal digit is parsed as it
      stands. */
  lemma ParseIntNoSpace(s: string)
    requires |s| > 0 && (s[0] == '-' || IsDigitIn(s[0], 10))
    ensures ParseInt(s) == ParseSigned(s)
  {
    TrimStartNumeral(s);
  }

  /** parseInt of an unsigned numeral followed by text: no white space and
      no sign to take, so the result is that of the numeral. */
  lemma ParseIntUnsigned(u: string, v: nat)
    requires |u| > 0 && IsDigitIn(u[0], 10) && ParseUnsigned(u) == Some(v)
    ensures ParseInt(u) == Some(v)
  {
    ParseIntNoSpace(u);
    ParseSignedUnsigned(u, v);
  }

  lemma ParseSignedUnsigned(u: string, v: nat)
    requires |u| > 0 && IsDigitIn(u[0], 10) && ParseUnsigned(u) == Some(v)
    ensures ParseSigned(u) == Some(v)
  {
    assert u[0] != '-' && u[0] != '+';
  }

  lemma ParseSignedMinus(u: string, v: nat)
    requires ParseUnsigned(u) == Some(v)
    ensures ParseSigned(['-'] + u) == Some(-(v as int))
  {
    assert (['-'] + u)[1..] == u;
  }

  /** parseInt of a minus sign before an unsigned numeral followed by text. */
  lemma ParseIntMinus(u: string, v: nat)
    requires ParseUnsigned(u) == Some(v)
    ensures ParseInt(['-'] + u) == Some(-(v as int))
  {
    ParseIntNoSpace(['-'] + u);
    ParseSignedMinus(u, v);
  }

  /** Reading back a written position gives the position: for every
      integer n, parseInt(`${n}px`) == n. */
  lemma ParseIntOfPx(n: int)
    ensures ParseInt(Px(n)) == Some(n)
  {
    var m: nat := if n < 0 then -n else n;
    var u := NatDigits(m) + "px";
    ParseUnsignedNumeral(m);
    if n < 0 {
      assert Px(n) == ['-'] + u;
      ParseIntMinus(u, m);
    } else {
      assert Px(n) == u && u[0] == NatDigits(m)[0];
      ParseIntUnsigned(u, m);
    }
  }

  /** Distinct positions are written as distinct style values. */
  lemma PxInjective(a: int, b: int)
    ensures Px(a) == Px(b) <==> a == b
  {
    if Px(a) == Px(b) {
      ParseIntOfPx(a);
      ParseIntOfPx(b);
    }
  }

  /** The centre test of main.js:96, made on style strings, holds exactly
      for the position 500. */
  lemma CenterStyle(n: int)
    ensures Px(n) == "500px" <==> n == 500
  {
    assert NatDigits(5) == "5";
    assert NatDigits(50) == "50";
    assert NatDigits(500) == "500";
    assert Px(500) == "500px";
    PxInjective(n, 500);
  }
}
