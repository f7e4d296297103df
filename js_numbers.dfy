/** JavaScript's global `parseInt(s)` called without a radix, on exact integers:
    skip leading white space, read an optional sign, read a `0x`/`0X` prefix as
    radix 16 (otherwise radix 10), then take the longest run of digits of that
    radix and ignore whatever follows. No digits at all gives `NaN`, here `None`. */
module JsNumbers {
  import opened Wrappers

  type Radix = r: nat | r == 10 || r == 16 witness 10

  /** The StrWhiteSpaceChar set: white space and line terminators. */
  const StrWhiteSpace: set<char> :=
    {'\t', '\n', '\U{000B}', '\U{000C}', '\r', ' ', '\U{00A0}', '\U{1680}',
     '\U{2000}', '\U{2001}', '\U{2002}', '\U{2003}', '\U{2004}', '\U{2005}',
     '\U{2006}', '\U{2007}', '\U{2008}', '\U{2009}', '\U{200A}',
     '\U{2028}', '\U{2029}', '\U{202F}', '\U{205F}', '\U{3000}', '\U{FEFF}'}

  predicate IsStrWhiteSpace(c: char) {
    c in StrWhiteSpace
  }

  /** `s` without its leading white space. */
  function TrimStart(s: string): string {
    if s != [] && IsStrWhiteSpace(s[0]) then TrimStart(s[1..]) else s
  }

  /** TrimStart drops exactly the leading white space: what is left is a suffix
      that does not start with white space, and all that is dropped is white space. */
  lemma {:induction false} TrimStartDropsSpace(s: string)
    ensures var r := TrimStart(s);
            && |r| <= |s| && r == s[|s| - |r|..]
            && (r == [] || !IsStrWhiteSpace(r[0]))
            && forall i :: 0 <= i < |s| - |r| ==> IsStrWhiteSpace(s[i])
  {
    if s != [] && IsStrWhiteSpace(s[0]) {
      var r := TrimStart(s[1..]);
      TrimStartDropsSpace(s[1..]);
      assert TrimStart(s) == r;
      forall i | 1 <= i < |s| - |r| ensures IsStrWhiteSpace(s[i]) {
        assert s[i] == s[1..][i - 1];
      }
    }
  }

  /** The value of `c` as a digit of `radix`, if it is one. */
  function DigitValue(c: char, radix: Radix): (d: Option<nat>)
    ensures d.Some? ==> d.value < radix
    ensures '0' <= c <= '9' ==> d == Some(c as nat - '0' as nat)
  {
    if '0' <= c <= '9' then Some(c as nat - '0' as nat)
    else if radix == 16 && 'a' <= c <= 'f' then Some(c as nat - 'a' as nat + 10)
    else if radix == 16 && 'A' <= c <= 'F' then Some(c as nat - 'A' as nat + 10)
    else None
  }

  predicate AllDigits(ds: string, radix: Radix) {
    forall i :: 0 <= i < |ds| ==> DigitValue(ds[i], radix).Some?
  }

  /** The length of the longest prefix of `s` made of digits of `radix`. */
  function DigitRun(s: string, radix: Radix): (n: nat)
    ensures n <= |s|
  {
    if s == [] || DigitValue(s[0], radix).None? then 0 else 1 + DigitRun(s[1..], radix)
  }

  /** DigitRun is the length of the longest prefix of digits. */
  lemma {:induction false} DigitRunLongest(s: string, radix: Radix)
    ensures var n := DigitRun(s, radix);
            && AllDigits(s[..n], radix)
            && (n < |s| ==> DigitValue(s[n], radix).None?)
  {
    if s != [] && DigitValue(s[0], radix).Some? {
      DigitRunLongest(s[1..], radix);
      var n := DigitRun(s, radix);
      assert s[..n] == [s[0]] + s[1..][..n - 1];
    }
  }

  /** The number a string of digits denotes, most significant digit first
      (applied only to strings for which AllDigits holds). */
  function DigitsValue(ds: string, radix: Radix): nat {
    if ds == [] then 0
    else DigitsValue(ds[..|ds| - 1], radix) * radix + DigitValue(ds[|ds| - 1], radix).GetOr(0)
  }

  /** The magnitude `parseInt` reads after the sign: a `0x`/`0X` prefix selects
      radix 16, and the longest run of digits of the radix is read. */
  function ParseMagnitude(u: string): Option<nat> {
    var hex := |u| >= 2 && u[0] == '0' && (u[1] == 'x' || u[1] == 'X');
    var radix: Radix := if hex then 16 else 10;
    var body := if hex then u[2..] else u;
    var n := DigitRun(body, radix);
    if n == 0 then None else Some(DigitsValue(body[..n], radix))
  }

  /** `parseInt(s)`; `None` is `NaN`. A negative zero is the integer 0. */
  function ParseInt(s: string): (n: Option<int>)
    ensures s == "" ==> n.None?
  {
    ParseSigned(TrimStart(s))
  }

  /** What `parseInt` reads once the white space is gone: an optional sign and a magnitude. */
  function ParseSigned(t: string): Option<int> {
    var negative := t != [] && t[0] == '-';
    var unsigned := if t != [] && (t[0] == '-' || t[0] == '+') then t[1..] else t;
    match ParseMagnitude(unsigned)
    case Some(m) => Some(if negative then -(m as int) else m as int)
    case None => None
  }

  /** The decimal digits of `n`, without leading zeros. */
  function NatDigits(n: nat): (ds: string)
    ensures |ds| >= 1
    decreases n
  {
    if n < 10 then [('0' as nat + n) as char]
    else NatDigits(n / 10) + [('0' as nat + n % 10) as char]
  }

  /** The decimal text of `n`, as JavaScript's `String(n)` writes an integer of
      magnitude below 10^21 (larger ones it writes in exponent form, which this
      model leaves out together with inexact integers). */
  function DecimalString(n: int): string {
    if n < 0 then "-" + NatDigits(-n) else NatDigits(n)
  }

  /** A non-empty string of decimal digits without a leading zero, such as
      `String(n)` writes for a natural number. */
  predicate IsDecimalNumeral(ds: string) {
    && |ds| >= 1
    && (forall i :: 0 <= i < |ds| ==> '0' <= ds[i] <= '9')
    && (|ds| >= 2 ==> ds[0] != '0')
  }

  lemma {:induction false} NatDigitsNumeral(n: nat)
    ensures IsDecimalNumeral(NatDigits(n))
    decreases n
  {
    if n >= 10 {
      NatDigitsNumeral(n / 10);
      var hi := NatDigits(n / 10);
      var ds := NatDigits(n);
      assert ds == hi + [('0' as nat + n % 10) as char];
      assert forall i :: 0 <= i < |hi| ==> ds[i] == hi[i];
    }
  }

  lemma {:induction false} NatDigitsValue(n: nat)
    ensures DigitsValue(NatDigits(n), 10) == n
    decreases n
  {
    if n >= 10 {
      var ds := NatDigits(n);
      NatDigitsValue(n / 10);
      assert ds[..|ds| - 1] == NatDigits(n / 10);
    }
  }

  lemma {:induction false} DigitRunOfDigits(ds: string, rest: string, radix: Radix)
    requires AllDigits(ds, radix)
    requires rest == [] || DigitValue(rest[0], radix).None?
    ensures DigitRun(ds + rest, radix) == |ds|
    decreases |ds|
  {
    if ds != [] {
      DigitRunOfDigits(ds[1..], rest, radix);
      assert (ds + rest)[1..] == ds[1..] + rest;
    } else {
      assert ds + rest == rest;
    }
  }

  /** What may follow a numeral without changing what `parseInt` reads: nothing,
      or text that starts with neither a digit nor `x`/`X` (after a lone `0`, an
      `x` starts a hexadecimal prefix, see `ParseIntHexText`). */
  predicate EndsNumeral(rest: string) {
    rest == [] || (DigitValue(rest[0], 10).None? && rest[0] != 'x' && rest[0] != 'X')
  }

  lemma MagnitudeOfNumeral(ds: string, rest: string)
    requires IsDecimalNumeral(ds) && EndsNumeral(rest)
    ensures ParseMagnitude(ds + rest) == Some(DigitsValue(ds, 10))
  {
    var u := ds + rest;
    assert !(|u| >= 2 && u[0] == '0' && (u[1] == 'x' || u[1] == 'X')) by {
      if |ds| == 1 { assert |u| >= 2 ==> u[1] == rest[0]; } else { assert u[0] == ds[0]; }
    }
    assert AllDigits(ds, 10) by {
      forall i | 0 <= i < |ds| ensures DigitValue(ds[i], 10).Some? {
        assert '0' <= ds[i] <= '9';
      }
    }
    DigitRunOfDigits(ds, rest, 10);
    assert u[..|ds|] == ds;
  }

  /** Without a sign, the magnitude is read as it stands. */
  lemma NoSign(u: string)
    requires u != [] && '0' <= u[0] <= '9'
    ensures ParseSigned(u) == match ParseMagnitude(u)
                              case Some(m) => Some(m as int)
                              case None => None
  {
  }

  /** A numeral without a sign reads as its value. */
  lemma UnsignedNumeral(ds: string, rest: string)
    requires IsDecimalNumeral(ds) && EndsNumeral(rest)
    ensures ParseInt(ds + rest) == Some(DigitsValue(ds, 10) as int)
  {
    var u := ds + rest;
    assert u[0] == ds[0];
    MagnitudeOfNumeral(ds, rest);
    NoSign(u);
    ParseIntNoSpace(u);
  }

  /** A minus sign negates the magnitude read after it. */
  lemma MinusSign(u: string)
    ensures ParseSigned("-" + u) == match ParseMagnitude(u)
                                    case Some(m) => Some(-(m as int))
                                    case None => None
  {
    assert ("-" + u)[1..] == u;
  }

  /** A minus sign and a numeral read as the numeral's value negated. */
  lemma NegativeNumeral(ds: string, rest: string)
    requires IsDecimalNumeral(ds) && EndsNumeral(rest)
    ensures ParseInt("-" + (ds + rest)) == Some(-(DigitsValue(ds, 10) as int))
  {
    MagnitudeOfNumeral(ds, rest);
    MinusSign(ds + rest);
    ParseIntNoSpace("-" + (ds + rest));
  }

  /** Text that starts with something other than white space is read as it stands. */
  lemma ParseIntNoSpace(s: string)
    requires s != [] && !IsStrWhiteSpace(s[0])
    ensures ParseInt(s) == ParseSigned(s)
  {
  }

  /** `parseInt` reads back the decimal text of any integer when the text after
      it does not start with a digit, `x` or `X` (`"12.5"` and `"3e2"` read as
      12 and 3). */
  lemma ParseIntDecimal(n: int, rest: string)
    requires EndsNumeral(rest)
    ensures ParseInt(DecimalString(n) + rest) == Some(n)
  {
    var m: nat := if n < 0 then -n else n;
    NatDigitsNumeral(m);
    NatDigitsValue(m);
    if n < 0 {
      assert DecimalString(n) + rest == "-" + (NatDigits(m) + rest);
      NegativeNumeral(NatDigits(m), rest);
    } else {
      UnsignedNumeral(NatDigits(m), rest);
    }
  }

  /** The two texts of the purchase-order form whose reading matters: the blank
      row's quantity `'1'` reads as 1 and the empty string as `NaN`. */
  lemma ParseIntFormTexts()
    ensures ParseInt("1") == Some(1)
    ensures ParseInt("") == None
  {
    ParseIntDecimal(1, "");
    assert DecimalString(1) + "" == "1";
  }

  /** `parseInt` stops at the decimal point: `"0.5e1"`, which a number input
      reads as 5, reads as 0. */
  lemma ParseIntExponentText()
    ensures ParseInt("0.5e1") == Some(0)
  {
    assert NatDigits(0) == "0";
    assert DecimalString(0) + ".5e1" == "0.5e1";
    ParseIntDecimal(0, ".5e1");
  }

  /** After a lone `0`, an `x` is not where the numeral ends: `"0x1"` is read in
      base 16 and gives 1, not 0. */
  lemma ParseIntHexText()
    ensures ParseInt("0x1") == Some(1)
  {
    assert TrimStart("0x1") == "0x1";
    assert "0x1"[2..] == "1";
    assert DigitRun("1", 16) == 1;
    assert DigitsValue("1", 16) == 1;
  }
}
