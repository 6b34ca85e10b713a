/** JavaScript's `parseInt(x)` without a radix argument, and the
    `parseInt(x) || fallback` idiom used for cookie lifetimes. A missing
    attribute is `parseInt(undefined)`, which is `NaN`; `NaN` is `None`. */
module JsNumber {
  import opened Wrappers

  /** Leading white space `parseInt` skips (the common code points). */
  predicate IsSpace(c: char) {
    c in {' ', '\t', '\n', '\U{000B}', '\U{000C}', '\r', '\U{00A0}', '\U{2028}', '\U{2029}', '\U{FEFF}'}
  }

  function TrimStart(s: string): (r: string)
    ensures |r| <= |s| && r == s[|s| - |r|..]
    ensures r == [] || !IsSpace(r[0])
    ensures (forall i :: 0 <= i < |s| - |r| ==> IsSpace(s[i]))
    decreases |s|
  {
    if s != [] && IsSpace(s[0]) then TrimStart(s[1..]) else s
  }

  /** The value of a digit character in bases up to 16. */
  function DigitValue(c: char): (d: Option<nat>)
    ensures d.Some? ==> d.value < 16
  {
    if '0' <= c <= '9' then Some(c as int - '0' as int)
    else if 'a' <= c <= 'f' then Some(c as int - 'a' as int + 10)
    else if 'A' <= c <= 'F' then Some(c as int - 'A' as int + 10)
    else None
  }

  predicate IsDigitIn(c: char, radix: nat) {
    DigitValue(c).Some? && DigitValue(c).value < radix
  }

  /** The longest prefix of `s` made of digits of `radix`. */
  function LeadingDigits(s: string, radix: nat): (ds: string)
    ensures |ds| <= |s| && ds == s[..|ds|]
    ensures forall i :: 0 <= i < |ds| ==> IsDigitIn(ds[i], radix)
    ensures |ds| < |s| ==> !IsDigitIn(s[|ds|], radix)
    decreases |s|
  {
    if s != [] && IsDigitIn(s[0], radix) then [s[0]] + LeadingDigits(s[1..], radix) else []
  }

  /** One more digit on the right of a value. */
  function Shift(acc: nat, radix: nat, d: nat): nat {
    acc * radix + d
  }

  /** The number a digit string denotes, most significant digit first. */
  function DigitsValue(ds: string, radix: nat): nat
    requires forall i :: 0 <= i < |ds| ==> IsDigitIn(ds[i], radix)
    decreases |ds|
  {
    if ds == [] then 0
    else
      var init := ds[..|ds| - 1];
      assert forall i :: 0 <= i < |init| ==> init[i] == ds[i];
      assert IsDigitIn(ds[|ds| - 1], radix);
      Shift(DigitsValue(init, radix), radix, DigitValue(ds[|ds| - 1]).value)
  }

  /** One optional sign: whether it is a minus, and the text after it. */
  function SplitSign(t: string): (bool, string)
  {
    if t != [] && (t[0] == '-' || t[0] == '+') then (t[0] == '-', t[1..]) else (false, t)
  }

  /** Base 16 after a `0x`/`0X` prefix, base 10 otherwise. */
  function SplitRadix(u: string): (nat, string)
  {
    if |u| >= 2 && u[0] == '0' && (u[1] == 'x' || u[1] == 'X') then (16, u[2..]) else (10, u)
  }

  /** The value of the leading digits, `NaN` when there is none. */
  function ReadDigits(body: string, radix: nat): Option<nat> {
    var ds := LeadingDigits(body, radix);
    if ds == [] then None else Some(DigitsValue(ds, radix))
  }

  /** Where `parseInt` reads its digits: after the leading white space, one
      optional sign and a `0x`/`0X` prefix. Also whether the sign was a
      minus, and the base. */
  datatype Scan = Scan(negative: bool, radix: nat, body: string)

  function ScanNumber(s: string): (sc: Scan)
    ensures sc.radix == 10 || sc.radix == 16
    ensures |sc.body| <= |s|
  {
    var (negative, unsigned) := SplitSign(TrimStart(s));
    var (radix, body) := SplitRadix(unsigned);
    Scan(negative, radix, body)
  }

  /** `parseInt(s)`: stop at the first non-digit; no digit at all is `NaN`. */
  function ParseInt(s: string): (r: Option<int>)
    ensures var sc := ScanNumber(s);
            r.None? <==> sc.body == [] || !IsDigitIn(sc.body[0], sc.radix)
    ensures r.Some? && r.value < 0 ==> ScanNumber(s).negative
  {
    var sc := ScanNumber(s);
    match ReadDigits(sc.body, sc.radix)
    case None => None
    case Some(v) => Some(if sc.negative then -(v as int) else v as int)
  }

  /** `parseInt(x) || fallback`: `NaN` and zero (also `-0`) are falsy. */
  function OrFallback(parsed: Option<int>, fallback: int): int
  {
    if parsed.Some? && parsed.value != 0 then parsed.value else fallback
  }

  // ---------------------------------------------------------------------
  // Decimal rendering, the partner of ParseInt
  // ---------------------------------------------------------------------

  function DecimalDigit(d: nat): (c: char)
    requires d < 10
    ensures DigitValue(c) == Some(d)
  {
    ['0', '1', '2', '3', '4', '5', '6', '7', '8', '9'][d]
  }

  /** The canonical decimal text of a natural number, as a header holds it. */
  function Decimal(n: nat): (s: string)
    ensures |s| >= 1
    decreases n
  {
    if n < 10 then [DecimalDigit(n)] else Decimal(n / 10) + [DecimalDigit(n % 10)]
  }

  lemma {:induction false} DecimalIsDigits(n: nat)
    ensures forall i :: 0 <= i < |Decimal(n)| ==> IsDigitIn(Decimal(n)[i], 10)
    ensures n > 0 ==> Decimal(n)[0] != '0'
    decreases n
  {
    if n >= 10 {
      DecimalIsDigits(n / 10);
      var s := Decimal(n / 10) + [DecimalDigit(n % 10)];
      assert forall i :: 0 <= i < |Decimal(n / 10)| ==> s[i] == Decimal(n / 10)[i];
    }
  }

  lemma {:induction false} DecimalValue(n: nat)
    ensures DecimalIsDigitsFact(n)
    ensures DigitsValue(Decimal(n), 10) == n
    decreases n
  {
    DecimalIsDigits(n);
    if n >= 10 {
      DecimalValue(n / 10);
      var s := Decimal(n);
      assert s[..|s| - 1] == Decimal(n / 10);
    }
  }

  /** Every character of `Decimal(n)` is a decimal digit. */
  predicate DecimalIsDigitsFact(n: nat) {
    forall i :: 0 <= i < |Decimal(n)| ==> IsDigitIn(Decimal(n)[i], 10)
  }

  /** Text that starts with a decimal digit is read in base 10 from its
      first character, unless it starts with `0x`/`0X`. */
  lemma {:induction false} DigitLedText(s: string)
    requires s != [] && IsDigitIn(s[0], 10)
    requires |s| >= 2 && s[0] == '0' ==> s[1] != 'x' && s[1] != 'X'
    ensures ParseInt(s) == ReadDigits(s, 10)
  {
    assert !IsSpace(s[0]);
    assert TrimStart(s) == s;
    assert SplitSign(s) == (false, s);
    assert SplitRadix(s) == (10, s);
  }

  /** Reading back a rendered natural number gives the number. */
  lemma ParseDecimal(n: nat)
    ensures ParseInt(Decimal(n)) == Some(n)
  {
    var s := Decimal(n);
    DecimalValue(n);
    TrailingTextIgnored(s, []);
    assert s + [] == s;
  }

  /** A header lifetime that is a positive number is used as it stands. */
  lemma PositiveLifetimeKept(n: nat, fallback: int)
    requires n > 0
    ensures OrFallback(ParseInt(Decimal(n)), fallback) == n
  {
    ParseDecimal(n);
  }

  /** Every digit `parseInt` would read is `0`; this holds trivially when
      there is none. */
  predicate NoNonZeroDigit(s: string) {
    var sc := ScanNumber(s);
    var ds := LeadingDigits(sc.body, sc.radix);
    forall i :: 0 <= i < |ds| ==> ds[i] == '0'
  }

  lemma ShiftZero(acc: nat, radix: nat, d: nat)
    requires radix > 0
    ensures Shift(acc, radix, d) == 0 <==> acc == 0 && d == 0
  {
    if acc > 0 {
      assert acc * radix >= radix;
    }
  }

  /** A digit string denotes zero exactly when all its digits are `0`. */
  lemma {:induction false} DigitsValueZero(ds: string, radix: nat)
    requires radix > 0
    requires forall i :: 0 <= i < |ds| ==> IsDigitIn(ds[i], radix)
    ensures DigitsValue(ds, radix) == 0 <==> forall i :: 0 <= i < |ds| ==> ds[i] == '0'
    decreases |ds|
  {
    if ds != [] {
      var init := ds[..|ds| - 1];
      assert forall i :: 0 <= i < |init| ==> init[i] == ds[i];
      DigitsValueZero(init, radix);
      var last := ds[|ds| - 1];
      assert DigitValue(last).Some?;
      assert DigitValue(last).value == 0 <==> last == '0';
      ShiftZero(DigitsValue(init, radix), radix, DigitValue(last).value);
    }
  }

  /** A lifetime takes the fallback exactly when `parseInt` finds no digit
      other than `0`: no digit at all (`NaN`), or `0`, `-0`, `000`, `0x0`
      with anything after them. Any other text keeps its parsed number. */
  lemma {:induction false} ZeroOrGarbageFallsBack(s: string, fallback: int)
    ensures ParseInt(s).None? || ParseInt(s) == Some(0) <==> NoNonZeroDigit(s)
    ensures NoNonZeroDigit(s) ==> OrFallback(ParseInt(s), fallback) == fallback
    ensures !NoNonZeroDigit(s) ==> OrFallback(ParseInt(s), fallback) == ParseInt(s).value
  {
    var sc := ScanNumber(s);
    var ds := LeadingDigits(sc.body, sc.radix);
    DigitsValueZero(ds, sc.radix);
    assert ds == [] ==> ParseInt(s).None?;
    if ds != [] {
      var v := DigitsValue(ds, sc.radix);
      assert ParseInt(s) == Some(if sc.negative then -(v as int) else v as int);
      assert ParseInt(s) == Some(0) <==> v == 0;
    }
  }

  /** The leading digits of digits followed by a non-digit are those
      digits. */
  lemma {:induction false} LeadingDigitsOfConcat(d: string, t: string, radix: nat)
    requires forall i :: 0 <= i < |d| ==> IsDigitIn(d[i], radix)
    requires t == [] || !IsDigitIn(t[0], radix)
    ensures LeadingDigits(d + t, radix) == d
    decreases |d|
  {
    if d == [] {
      assert d + t == t;
    } else {
      assert (d + t)[0] == d[0];
      assert (d + t)[1..] == d[1..] + t;
      LeadingDigitsOfConcat(d[1..], t, radix);
    }
  }

  /** `parseInt` stops at the first non-digit: decimal digits followed by
      any text read as those digits. The exception is a lone `0` followed by
      `x` or `X`, which starts a hexadecimal number (see `HexPrefixRead`). */
  lemma {:induction false} TrailingTextIgnored(d: string, t: string)
    requires d != [] && forall i :: 0 <= i < |d| ==> IsDigitIn(d[i], 10)
    requires t == [] || !IsDigitIn(t[0], 10)
    requires d == "0" && t != [] ==> t[0] != 'x' && t[0] != 'X'
    ensures ParseInt(d + t) == Some(DigitsValue(d, 10))
  {
    var s := d + t;
    assert s[0] == d[0];
    if |s| >= 2 && s[0] == '0' {
      if |d| >= 2 {
        assert s[1] == d[1];
        assert IsDigitIn(d[1], 10);
      } else {
        assert d == "0";
        assert s[1] == t[0];
      }
    }
    DigitLedText(s);
    LeadingDigitsOfConcat(d, t, 10);
  }

  /** After `0x` the digits are read in base 16: `"0x1f"` is 31. */
  lemma HexPrefixRead()
    ensures ParseInt("0x1f") == Some(31)
  {
    assert !IsSpace('0');
    assert TrimStart("0x1f") == "0x1f";
    assert SplitSign("0x1f") == (false, "0x1f");
    assert SplitRadix("0x1f") == (16, "1f");
    assert LeadingDigits("f", 16) == "f" by {
      assert LeadingDigits("f"[1..], 16) == [];
    }
    assert LeadingDigits("1f", 16) == "1f" by {
      assert "1f"[1..] == "f";
    }
    assert DigitsValue("1f", 16) == 31 by {
      assert "1f"[..1] == "1";
      assert "1"[..0] == [];
    }
  }
}
