/** `parseInt(string)` with no radix argument, as section 19.2.5 of ECMA-262
    ("parseInt (string, radix)") defines it: skip leading white space, read an
    optional sign, switch to radix 16 after a `0x` or `0X` prefix (radix 10
    otherwise), read the longest run of digits of that radix, and return `NaN`
    when the run is empty. `NaN` is `None`; `-0` and `+0` are both `0`. */
module EcmaParseInt {
  import opened Wrappers

  /** StrWhiteSpaceChar: the WhiteSpace and LineTerminator code points. */
  predicate IsStrWhiteSpace(c: char) {
    var n := c as int;
    n == 0x09 || n == 0x0A || n == 0x0B || n == 0x0C || n == 0x0D || n == 0x20
    || n == 0xA0 || n == 0x1680 || (0x2000 <= n <= 0x200A)
    || n == 0x2028 || n == 0x2029 || n == 0x202F || n == 0x205F || n == 0x3000 || n == 0xFEFF
  }

  predicate IsDecimalDigit(c: char) {
    '0' <= c <= '9'
  }

  /** The digit value ECMA-262 gives a character: `0`-`9` are 0 to 9, the Latin
      letters in either case are 10 to 35, and any other character is 36, a digit of
      no radix. */
  function DigitValue(c: char): (d: nat)
    ensures d <= 36
    ensures d < 10 <==> IsDecimalDigit(c)
  {
    if IsDecimalDigit(c) then c as int - '0' as int
    else if 'a' <= c <= 'z' then c as int - 'a' as int + 10
    else if 'A' <= c <= 'Z' then c as int - 'A' as int + 10
    else 36
  }

  /** A digit of the radix. */
  predicate IsRadixDigit(c: char, radix: nat) {
    DigitValue(c) < radix
  }

  /** The string without its leading white space. */
  function TrimStart(s: string): (t: string)
    ensures |t| <= |s|
    ensures t == [] || !IsStrWhiteSpace(t[0])
  {
    if s != [] && IsStrWhiteSpace(s[0]) then TrimStart(s[1..]) else s
  }

  /** The length of the longest prefix made of digits of the radix. */
  function DigitPrefixLength(s: string, radix: nat): (n: nat)
    ensures n <= |s|
  {
    if s != [] && IsRadixDigit(s[0], radix) then 1 + DigitPrefixLength(s[1..], radix) else 0
  }

  /** The mathematical value of a digit string in the radix, most significant first. */
  function Value(digits: string, radix: nat): nat {
    if digits == [] then 0
    else Value(digits[..|digits| - 1], radix) * radix + DigitValue(digits[|digits| - 1])
  }

  /** -1 after a leading `-`, 1 otherwise (steps 3 and 4). */
  function Sign(t: string): int {
    if t != [] && t[0] == '-' then -1 else 1
  }

  /** The string without a leading `+` or `-`. */
  function StripSign(t: string): string {
    if t != [] && (t[0] == '+' || t[0] == '-') then t[1..] else t
  }

  /** `0x` or `0X` at the start switches to radix 16 (step 8). */
  predicate HasHexPrefix(u: string) {
    |u| >= 2 && u[0] == '0' && (u[1] == 'x' || u[1] == 'X')
  }

  /** The value of the longest digit prefix after the optional `0x`, or `None` when that
      prefix is empty (steps 8 to 12). */
  function ParseMagnitude(u: string): Option<nat> {
    var radix := if HasHexPrefix(u) then 16 else 10;
    var v := if HasHexPrefix(u) then u[2..] else u;
    var n := DigitPrefixLength(v, radix);
    if n == 0 then None else Some(Value(v[..n], radix))
  }

  /** `parseInt(s)`: `None` stands for `NaN`. A blank string is `NaN`, and the result is
      negative only after a leading `-`. */
  function ParseInt(s: string): (r: Option<int>)
    ensures TrimStart(s) == [] ==> r.None?
    ensures r.Some? && r.value < 0 ==> TrimStart(s)[0] == '-'
  {
    var t := TrimStart(s);
    var m := ParseMagnitude(StripSign(t));
    if m.None? then None else Some(Sign(t) * m.value)
  }

  // Lemmas.

  /** What trimming removes is a prefix made only of white space. */
  lemma {:induction false} TrimStartRemovesWhiteSpace(s: string)
    ensures var t := TrimStart(s);
      t == s[|s| - |t|..] && forall i :: 0 <= i < |s| - |t| ==> IsStrWhiteSpace(s[i])
  {
    if s != [] && IsStrWhiteSpace(s[0]) {
      TrimStartRemovesWhiteSpace(s[1..]);
    }
  }

  /** The digit prefix is made of digits of the radix and cannot be extended. */
  lemma {:induction false} DigitPrefixIsLongest(s: string, radix: nat)
    ensures var n := DigitPrefixLength(s, radix);
      (forall i :: 0 <= i < n ==> IsRadixDigit(s[i], radix)) && (n == |s| || !IsRadixDigit(s[n], radix))
  {
    if s != [] && IsRadixDigit(s[0], radix) {
      DigitPrefixIsLongest(s[1..], radix);
    }
  }

  /** Appending a digit shifts the value by one place. */
  lemma ValueSnoc(d: string, c: char, radix: nat)
    ensures Value(d + [c], radix) == Value(d, radix) * radix + DigitValue(c)
  {
    assert (d + [c])[..|d|] == d;
  }

  /** Trimming stops at once at a character that is not white space. */
  lemma {:induction false} TrimStartSkipsWhiteSpace(ws: string, s: string)
    requires forall i :: 0 <= i < |ws| ==> IsStrWhiteSpace(ws[i])
    requires s == [] || !IsStrWhiteSpace(s[0])
    ensures TrimStart(ws + s) == s
  {
    if ws != [] {
      assert (ws + s)[1..] == ws[1..] + s;
      TrimStartSkipsWhiteSpace(ws[1..], s);
    }
  }

  /** The digit prefix of `d + rest` is `d` when `rest` does not start with a digit. */
  lemma {:induction false} DigitPrefixOfDigits(d: string, rest: string, radix: nat)
    requires forall i :: 0 <= i < |d| ==> IsRadixDigit(d[i], radix)
    requires rest == [] || !IsRadixDigit(rest[0], radix)
    ensures DigitPrefixLength(d + rest, radix) == |d|
  {
    if d != [] {
      assert (d + rest)[1..] == d[1..] + rest;
      DigitPrefixOfDigits(d[1..], rest, radix);
    }
  }

  /** A decimal digit is neither white space nor a sign. */
  lemma DigitIsNotSpaceOrSign(c: char)
    requires IsDecimalDigit(c)
    ensures !IsStrWhiteSpace(c) && c != '+' && c != '-'
  {
  }

  /** A decimal run that does not open a `0x` prefix, then no digit: its decimal value. */
  lemma MagnitudeOfDecimal(d: string, rest: string)
    requires d != [] && !HasHexPrefix(d + rest)
    requires forall i :: 0 <= i < |d| ==> IsDecimalDigit(d[i])
    requires rest == [] || !IsDecimalDigit(rest[0])
    ensures ParseMagnitude(d + rest) == Some(Value(d, 10))
  {
    var t := d + rest;
    DigitPrefixOfDigits(d, rest, 10);
    assert t[..|d|] == d;
  }

  /** `parseInt` put together from its steps. */
  lemma ParseIntFromSteps(s: string, t: string, v: nat)
    requires TrimStart(s) == t && ParseMagnitude(StripSign(t)) == Some(v)
    ensures ParseInt(s) == Some(Sign(t) * v)
  {
  }

  /** Leading white space, a run of decimal digits, then anything that is not a digit:
      `parseInt` returns the decimal value of the run. Leading zeros are allowed ("007"
      is 7); only a `0` followed by `x` or `X`, which switches to radix 16, is excluded. */
  lemma DecimalPrefix(ws: string, d: string, rest: string)
    requires forall i :: 0 <= i < |ws| ==> IsStrWhiteSpace(ws[i])
    requires d != [] && !HasHexPrefix(d + rest)
    requires forall i :: 0 <= i < |d| ==> IsDecimalDigit(d[i])
    requires rest == [] || !IsDecimalDigit(rest[0])
    ensures ParseInt(ws + (d + rest)) == Some(Value(d, 10))
  {
    var t := d + rest;
    UnsignedDigitFirst(d, rest);
    TrimStartSkipsWhiteSpace(ws, t);
    MagnitudeOfDecimal(d, rest);
    ParseIntFromSteps(ws + t, t, Value(d, 10));
  }

  /** A string starting with a decimal digit has no white space or sign to skip. */
  lemma UnsignedDigitFirst(d: string, rest: string)
    requires d != [] && IsDecimalDigit(d[0])
    ensures !IsStrWhiteSpace((d + rest)[0])
    ensures StripSign(d + rest) == d + rest && Sign(d + rest) == 1
  {
    assert (d + rest)[0] == d[0];
    DigitIsNotSpaceOrSign(d[0]);
  }

  /** After a `-` the same run gives the negated value; after a `+` the same value. */
  lemma SignedDecimalPrefix(ws: string, sign: char, d: string, rest: string)
    requires forall i :: 0 <= i < |ws| ==> IsStrWhiteSpace(ws[i])
    requires sign == '+' || sign == '-'
    requires d != [] && !HasHexPrefix(d + rest)
    requires forall i :: 0 <= i < |d| ==> IsDecimalDigit(d[i])
    requires rest == [] || !IsDecimalDigit(rest[0])
    ensures ParseInt(ws + ([sign] + (d + rest))) == Some(Sign([sign]) * Value(d, 10))
  {
    var t := [sign] + (d + rest);
    SignThenRest(sign, d + rest);
    TrimStartSkipsWhiteSpace(ws, t);
    MagnitudeOfDecimal(d, rest);
    ParseIntFromSteps(ws + t, t, Value(d, 10));
  }

  /** A sign followed by anything: the sign is read off and stripped. */
  lemma SignThenRest(sign: char, u: string)
    requires sign == '+' || sign == '-'
    ensures StripSign([sign] + u) == u && Sign([sign] + u) == Sign([sign])
    ensures !IsStrWhiteSpace(([sign] + u)[0])
  {
    assert ([sign] + u)[0] == sign && ([sign] + u)[1..] == u;
  }

  /** `0x` (or `0X`) then a run of hexadecimal digits, then anything that is not one:
      `parseInt` returns the hexadecimal value of the run. */
  lemma HexPrefix(ws: string, x: char, h: string, rest: string)
    requires forall i :: 0 <= i < |ws| ==> IsStrWhiteSpace(ws[i])
    requires x == 'x' || x == 'X'
    requires h != [] && forall i :: 0 <= i < |h| ==> IsRadixDigit(h[i], 16)
    requires rest == [] || !IsRadixDigit(rest[0], 16)
    ensures ParseInt(ws + (['0', x] + (h + rest))) == Some(Value(h, 16))
  {
    var t := ['0', x] + (h + rest);
    assert t[0] == '0';
    DigitIsNotSpaceOrSign('0');
    TrimStartSkipsWhiteSpace(ws, t);
    MagnitudeOfHex(x, h, rest);
    ParseIntFromSteps(ws + t, t, Value(h, 16));
  }

  /** A sign, then `0x` (or `0X`) and a hexadecimal run: the run's value with the sign's
      direction ("-0x1A" is -26). */
  lemma SignedHexPrefix(ws: string, sign: char, x: char, h: string, rest: string)
    requires forall i :: 0 <= i < |ws| ==> IsStrWhiteSpace(ws[i])
    requires sign == '+' || sign == '-'
    requires x == 'x' || x == 'X'
    requires h != [] && forall i :: 0 <= i < |h| ==> IsRadixDigit(h[i], 16)
    requires rest == [] || !IsRadixDigit(rest[0], 16)
    ensures ParseInt(ws + ([sign] + (['0', x] + (h + rest)))) == Some(Sign([sign]) * Value(h, 16))
  {
    var u := ['0', x] + (h + rest);
    var t := [sign] + u;
    SignThenRest(sign, u);
    TrimStartSkipsWhiteSpace(ws, t);
    MagnitudeOfHex(x, h, rest);
    ParseIntFromSteps(ws + t, t, Value(h, 16));
  }

  /** `0x` and a hexadecimal run, then no hexadecimal digit: the run's value, unsigned. */
  lemma MagnitudeOfHex(x: char, h: string, rest: string)
    requires x == 'x' || x == 'X'
    requires h != [] && forall i :: 0 <= i < |h| ==> IsRadixDigit(h[i], 16)
    requires rest == [] || !IsRadixDigit(rest[0], 16)
    ensures var t := ['0', x] + (h + rest);
      StripSign(t) == t && Sign(t) == 1 && ParseMagnitude(t) == Some(Value(h, 16))
  {
    var t := ['0', x] + (h + rest);
    assert t[0] == '0' && t[1] == x && t[2..] == h + rest;
    DigitPrefixOfDigits(h, rest, 16);
    assert (h + rest)[..|h|] == h;
  }

  /** The decimal value of a six-digit string, place by place. */
  lemma SixDigitValue(s: string)
    requires |s| == 6
    ensures Value(s, 10) == 100000 * DigitValue(s[0]) + 10000 * DigitValue(s[1]) + 1000 * DigitValue(s[2])
                            + 100 * DigitValue(s[3]) + 10 * DigitValue(s[4]) + DigitValue(s[5])
  {
    assert s[..0] == [];
    assert s[..1] == s[..0] + [s[0]];
    ValueSnoc(s[..0], s[0], 10);
    assert s[..2] == s[..1] + [s[1]];
    ValueSnoc(s[..1], s[1], 10);
    assert s[..3] == s[..2] + [s[2]];
    ValueSnoc(s[..2], s[2], 10);
    assert s[..4] == s[..3] + [s[3]];
    ValueSnoc(s[..3], s[3], 10);
    assert s[..5] == s[..4] + [s[4]];
    ValueSnoc(s[..4], s[4], 10);
    assert s == s[..5] + [s[5]];
    ValueSnoc(s[..5], s[5], 10);
  }

  /** The value of a five-digit string, by Horner's rule. */
  lemma FiveDigitValue(s: string, radix: nat)
    requires |s| == 5
    ensures Value(s, radix) ==
      (((DigitValue(s[0]) * radix + DigitValue(s[1])) * radix + DigitValue(s[2])) * radix + DigitValue(s[3])) * radix
      + DigitValue(s[4])
  {
    assert s[..0] == [];
    assert s[..1] == s[..0] + [s[0]];
    ValueSnoc(s[..0], s[0], radix);
    assert s[..2] == s[..1] + [s[1]];
    ValueSnoc(s[..1], s[1], radix);
    assert s[..3] == s[..2] + [s[2]];
    ValueSnoc(s[..2], s[2], radix);
    assert s[..4] == s[..3] + [s[3]];
    ValueSnoc(s[..3], s[3], radix);
    assert s == s[..4] + [s[4]];
    ValueSnoc(s[..4], s[4], radix);
  }

  /** White space and then nothing, or then a character that is neither a sign nor a
      digit: `parseInt` is `NaN`. This covers the blank string. */
  lemma NoDigits(ws: string, rest: string)
    requires forall i :: 0 <= i < |ws| ==> IsStrWhiteSpace(ws[i])
    requires rest == [] || (!IsStrWhiteSpace(rest[0]) && rest[0] != '+' && rest[0] != '-' && !IsDecimalDigit(rest[0]))
    ensures ParseInt(ws + rest) == None
  {
    TrimStartSkipsWhiteSpace(ws, rest);
  }

  /** A sign with no decimal digit after it: `parseInt` is `NaN`. */
  lemma SignWithoutDigits(ws: string, sign: char, rest: string)
    requires forall i :: 0 <= i < |ws| ==> IsStrWhiteSpace(ws[i])
    requires sign == '+' || sign == '-'
    requires rest == [] || !IsDecimalDigit(rest[0])
    ensures ParseInt(ws + ([sign] + rest)) == None
  {
    SignThenRest(sign, rest);
    TrimStartSkipsWhiteSpace(ws, [sign] + rest);
  }

  /** `0x` (or `0X`) with no hexadecimal digit after it: `parseInt` is `NaN`. */
  lemma HexWithoutDigits(ws: string, x: char, rest: string)
    requires forall i :: 0 <= i < |ws| ==> IsStrWhiteSpace(ws[i])
    requires x == 'x' || x == 'X'
    requires rest == [] || !IsRadixDigit(rest[0], 16)
    ensures ParseInt(ws + (['0', x] + rest)) == None
  {
    var t := ['0', x] + rest;
    assert t[0] == '0' && t[1] == x && t[2..] == rest;
    DigitIsNotSpaceOrSign('0');
    TrimStartSkipsWhiteSpace(ws, t);
    assert StripSign(t) == t && HasHexPrefix(t);
  }

  /** A sign and then `0x` (or `0X`) with no hexadecimal digit after it: `NaN`. */
  lemma SignedHexWithoutDigits(ws: string, sign: char, x: char, rest: string)
    requires forall i :: 0 <= i < |ws| ==> IsStrWhiteSpace(ws[i])
    requires sign == '+' || sign == '-'
    requires x == 'x' || x == 'X'
    requires rest == [] || !IsRadixDigit(rest[0], 16)
    ensures ParseInt(ws + ([sign] + (['0', x] + rest))) == None
  {
    var u := ['0', x] + rest;
    var t := [sign] + u;
    SignThenRest(sign, u);
    TrimStartSkipsWhiteSpace(ws, t);
    assert u[0] == '0' && u[1] == x && u[2..] == rest;
    assert HasHexPrefix(u);
  }

  /** A leading zero does not change the value of a digit run. */
  lemma {:induction false} ValueLeadingZero(d: string, radix: nat)
    ensures Value(['0'] + d, radix) == Value(d, radix)
  {
    var z := ['0'] + d;
    if d == [] {
      assert z[..0] == [];
    } else {
      assert z[..|z| - 1] == ['0'] + d[..|d| - 1];
      assert z[|z| - 1] == d[|d| - 1];
      ValueLeadingZero(d[..|d| - 1], radix);
    }
  }

  /** `radix` to the power `e`. */
  function Pow(radix: nat, e: nat): nat {
    if e == 0 then 1 else radix * Pow(radix, e - 1)
  }

  /** Powers of a positive radix grow with the exponent. */
  lemma {:induction false} PowGrows(radix: nat, e: nat, f: nat)
    requires radix >= 1 && e <= f
    ensures Pow(radix, e) <= Pow(radix, f)
  {
    if e < f {
      PowGrows(radix, e, f - 1);
      assert Pow(radix, f) == radix * Pow(radix, f - 1);
    }
  }

  /** A run of `k` digits of the radix has a value below `radix^k`. */
  lemma {:induction false} ValueBelowPow(d: string, radix: nat)
    requires forall i :: 0 <= i < |d| ==> IsRadixDigit(d[i], radix)
    ensures Value(d, radix) < Pow(radix, |d|)
  {
    if d != [] {
      var p := d[..|d| - 1];
      assert forall i :: 0 <= i < |p| ==> p[i] == d[i];
      ValueBelowPow(p, radix);
      var v := Value(p, radix);
      var c := DigitValue(d[|d| - 1]);
      assert Value(d, radix) == v * radix + c;
      assert Pow(radix, |d|) == radix * Pow(radix, |p|);
      NextPlaceBelow(v, c, Pow(radix, |p|), radix);
    }
  }

  /** One more place: a value below `q` shifted by the radix, plus a digit, stays below
      `radix * q`. */
  lemma NextPlaceBelow(v: nat, c: nat, q: nat, radix: nat)
    requires v < q && c < radix
    ensures v * radix + c < radix * q
  {
    assert (v + 1) * radix <= q * radix;
  }

  /** After leading white space, at most five characters can never reach 600001: five
      decimal digits stay below 100000, and `0x` leaves room for at most three
      hexadecimal digits. */
  lemma ShortInputBelow600001(s: string)
    ensures |TrimStart(s)| < 6 ==> ParseInt(s).None? || ParseInt(s).value < 600001
  {
    var t := TrimStart(s);
    var u := StripSign(t);
    var hex := HasHexPrefix(u);
    var radix := if hex then 16 else 10;
    var v := if hex then u[2..] else u;
    var n := DigitPrefixLength(v, radix);
    if |t| < 6 && n > 0 {
      DigitPrefixIsLongest(v, radix);
      var d := v[..n];
      assert forall i :: 0 <= i < |d| ==> IsRadixDigit(d[i], radix);
      ValueBelowPow(d, radix);
      PowGrows(radix, n, if hex then 3 else 5);
      assert Pow(16, 3) == 4096 && Pow(10, 5) == 100000;
      assert ParseMagnitude(u) == Some(Value(d, radix));
    }
  }
}
