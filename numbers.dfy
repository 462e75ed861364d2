/**
  JavaScript's `parseInt(string)` (no radix argument) and the decimal form
  `String(n)` / template literals give an integer, as far as the bot uses them:
  reward amounts typed into a form and button indices read back from a custom id.
  `None` stands for `NaN`.
*/
module Numbers {
  import opened Wrappers
  import Text

  /** The value of `c` as a digit in base `radix` (10 or 16), if it is one. */
  function DigitValue(c: char, radix: nat): (r: Option<nat>)
    requires radix == 10 || radix == 16
    ensures r.Some? ==> r.value < radix
  {
    if '0' <= c <= '9' then Some(c as nat - '0' as nat)
    else if radix == 16 && 'a' <= c <= 'f' then Some(c as nat - 'a' as nat + 10)
    else if radix == 16 && 'A' <= c <= 'F' then Some(c as nat - 'A' as nat + 10)
    else None
  }

  predicate IsDigit(c: char, radix: nat)
    requires radix == 10 || radix == 16
  {
    DigitValue(c, radix).Some?
  }

  /** The longest prefix of `s` made of digits of `radix`. */
  function DigitPrefix(s: string, radix: nat): (r: string)
    requires radix == 10 || radix == 16
    ensures |r| <= |s| && r == s[..|r|]
    ensures forall i :: 0 <= i < |r| ==> IsDigit(r[i], radix)
    ensures |r| < |s| ==> !IsDigit(s[|r|], radix)
  {
    if s == [] || !IsDigit(s[0], radix) then ""
    else
      var rest := DigitPrefix(s[1..], radix);
      assert ([s[0]] + rest)[1..] == rest;
      [s[0]] + rest
  }

  /** The value of a string of digits, most significant first. */
  function DigitsValue(ds: string, radix: nat): nat
    requires radix == 10 || radix == 16
    requires forall i :: 0 <= i < |ds| ==> IsDigit(ds[i], radix)
  {
    if ds == [] then 0
    else
      assert IsDigit(ds[|ds| - 1], radix);
      DigitsValue(ds[..|ds| - 1], radix) * radix + DigitValue(ds[|ds| - 1], radix).value
  }

  /** The sign `parseInt` reads at the front, and the text after it. */
  function SplitSign(s: string): (int, string) {
    if s != [] && s[0] == '-' then (-1, s[1..])
    else if s != [] && s[0] == '+' then (1, s[1..])
    else (1, s)
  }

  /** The radix `parseInt` uses and the text after a `0x`/`0X` prefix. */
  function SplitRadix(s: string): (nat, string) {
    if |s| >= 2 && s[0] == '0' && (s[1] == 'x' || s[1] == 'X') then (16, s[2..]) else (10, s)
  }

  /**
    `parseInt(s)`: skip leading white space, read an optional sign and an
    optional `0x` prefix, then as many digits as follow; no digit at all is `NaN`.
  */
  function ParseInt(s: string): (r: Option<int>)
    ensures r.Some? <==>
      var (_, unsigned) := SplitSign(Text.TrimStart(s));
      var (radix, body) := SplitRadix(unsigned);
      body != [] && IsDigit(body[0], radix)
  {
    var (sign, unsigned) := SplitSign(Text.TrimStart(s));
    var (radix, body) := SplitRadix(unsigned);
    var ds := DigitPrefix(body, radix);
    if ds == [] then None else Some(sign * DigitsValue(ds, radix))
  }

  function DigitChar(d: nat): (c: char)
    requires d < 10
    ensures DigitValue(c, 10) == Some(d)
  {
    ['0', '1', '2', '3', '4', '5', '6', '7', '8', '9'][d]
  }

  /** The decimal digits of `n`, with no leading zero. */
  function NatToString(n: nat): (s: string)
    ensures |s| >= 1
    ensures forall i :: 0 <= i < |s| ==> IsDigit(s[i], 10)
    ensures |s| > 1 ==> s[0] != '0'
  {
    if n < 10 then [DigitChar(n)]
    else NatToString(n / 10) + [DigitChar(n % 10)]
  }

  /** `String(n)` for an integer: an optional minus sign and the decimal digits. */
  function IntToString(n: int): (s: string)
    ensures |s| >= 1
  {
    if n < 0 then "-" + NatToString(-n) else NatToString(n)
  }

  /** The digits of `n` read back give `n`. */
  lemma {:induction false} NatToStringValue(n: nat)
    ensures DigitsValue(NatToString(n), 10) == n
  {
    if n >= 10 {
      var s := NatToString(n);
      assert s[..|s| - 1] == NatToString(n / 10);
      NatToStringValue(n / 10);
    }
  }

  /** A string made only of digits is its own digit prefix. */
  lemma {:induction false} DigitPrefixAll(ds: string, radix: nat)
    requires radix == 10 || radix == 16
    requires forall i :: 0 <= i < |ds| ==> IsDigit(ds[i], radix)
    ensures DigitPrefix(ds, radix) == ds
  {
    if ds != [] {
      DigitPrefixAll(ds[1..], radix);
    }
  }

  /** `parseInt` reads the decimal digits of `n` back as `n`. */
  lemma ParseNatDigits(n: nat)
    ensures var ds := NatToString(n);
      SplitRadix(ds) == (10, ds) && DigitPrefix(ds, 10) == ds && DigitsValue(ds, 10) == n
  {
    var ds := NatToString(n);
    if |ds| >= 2 {
      assert ds[0] != '0';
    }
    DigitPrefixAll(ds, 10);
    NatToStringValue(n);
  }

  /** Printing an integer in decimal and parsing it back with `parseInt` gives the integer. */
  lemma ParseIntToString(n: int)
    ensures ParseInt(IntToString(n)) == Some(n)
  {
    var m: nat := if n < 0 then -n else n;
    var digits := NatToString(m);
    var s := IntToString(n);
    assert IsDigit(digits[0], 10);
    assert s[0] == '-' || s[0] == digits[0];
    assert Text.TrimStart(s) == s by {
      assert !Text.IsSpace(s[0]);
    }
    assert SplitSign(s) == (if n < 0 then -1 else 1, digits) by {
      if n < 0 {
        assert s[1..] == digits;
      } else {
        assert digits[0] != '-' && digits[0] != '+';
      }
    }
    ParseNatDigits(m);
  }

  /** `IntToString` never produces a `_`, so it can sit between `_` separators. */
  lemma IntToStringNoUnderscore(n: int)
    ensures '_' !in IntToString(n)
  {
    var s := IntToString(n);
    forall i | 0 <= i < |s| ensures s[i] != '_' {
      if n >= 0 {
        assert IsDigit(s[i], 10);
      } else if i > 0 {
        assert s[i] == NatToString(-n)[i - 1];
      }
    }
  }
}
