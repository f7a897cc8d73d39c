/** `src/components/AddressForm.tsx`: the submit handler's pincode check, the `error`
    state it sets, the `onSubmit` call it makes, and the `pattern` and `required`
    attributes of the inputs. */
module AddressForm {
  import opened Wrappers
  import opened EcmaParseInt
  import opened Auth

  /** The message shown when the pincode check fails. */
  const InvalidPincodeMessage: string := "Please enter a valid Chennai pincode (600001-600100)"

  /** The script check: `isNaN(n) || n < 600001 || n > 600100` rejects, where
      `n = parseInt(pincode)`. */
  predicate PincodeAccepted(pincode: string)
    ensures PincodeAccepted(pincode) ==> |TrimStart(pincode)| >= 6
  {
    ShortInputBelow600001(pincode);
    var n := ParseInt(pincode);
    !(n.None? || n.value < 600001 || n.value > 600100)
  }

  /** The `pattern="^6000[0-9]{2}$"` attribute of the pincode input, matched against the
      whole value. The browser does not apply a pattern to an empty value (only
      `required` rejects it); this predicate is false on "" instead, which changes no
      verdict, since the script check rejects "" as well (`EmptyPincodeRejected`). */
  predicate MatchesPattern(pincode: string) {
    |pincode| == 6 && pincode[..4] == "6000" && IsDecimalDigit(pincode[4]) && IsDecimalDigit(pincode[5])
  }

  /** The `required` attributes: address line 1, area and pincode must be non-empty. */
  predicate RequiredFieldsPresent(a: AddressInput) {
    a.addressLine1 != "" && a.area != "" && a.pincode != ""
  }

  /** What one run of `handleSubmit` decides: `onSubmit(address)` or the error. */
  datatype SubmitOutcome = Submitted(address: AddressInput) | Rejected(message: string)

  /** The decision of `handleSubmit` for the five fields as read from the form. */
  function Submit(a: AddressInput): (o: SubmitOutcome)
    ensures o.Submitted? <==> PincodeAccepted(a.pincode)
    ensures o.Submitted? ==> o.address == a
    ensures o.Rejected? ==> o.message == InvalidPincodeMessage
  {
    if PincodeAccepted(a.pincode) then Submitted(a) else Rejected(InvalidPincodeMessage)
  }

  /** The submit button as rendered. */
  datatype SubmitButton = SubmitButton(disabled: bool, text: string)

  /** `disabled={loading}` and `{loading ? "Saving..." : "Save Address"}`. */
  function SubmitButtonFor(loading: bool): (b: SubmitButton)
    ensures b.disabled <==> loading
    ensures b.text == "Saving..." <==> loading
  {
    SubmitButton(loading, if loading then "Saving..." else "Save Address")
  }

  /** The form component: its `error` state and the `onSubmit` calls it has made. */
  class Form {
    const loading: bool
    var error: string
    var submitted: seq<AddressInput>

    constructor (loading: bool)
      ensures this.loading == loading && error == "" && submitted == []
    {
      this.loading := loading;
      error := "";
      submitted := [];
    }

    /** `handleSubmit`: set the error and stop, or clear the error and call `onSubmit`
        once with the fields exactly as read (the pincode stays a string). */
    method HandleSubmit(a: AddressInput)
      modifies this`error, this`submitted
      ensures Submit(a).Submitted? ==> error == "" && submitted == old(submitted) + [a]
      ensures Submit(a).Rejected? ==> error == Submit(a).message && submitted == old(submitted)
    {
      var pincodeNum := ParseInt(a.pincode);
      if pincodeNum.None? || pincodeNum.value < 600001 || pincodeNum.value > 600100 {
        error := InvalidPincodeMessage;
        return;
      }
      error := "";
      submitted := submitted + [a];
    }
  }

  // Properties of the pincode check.

  /** The decimal digit character of `k`. */
  function DigitChar(k: nat): (c: char)
    requires k < 10
    ensures IsDecimalDigit(c) && DigitValue(c) == k
  {
    ('0' as int + k) as char
  }

  /** The six-character pincode `"6000dd"` of a number in 600000..600099. */
  function PatternPincode(n: int): (s: string)
    requires 600000 <= n <= 600099
    ensures MatchesPattern(s)
  {
    "6000" + [DigitChar((n - 600000) / 10), DigitChar((n - 600000) % 10)]
  }

  /** A pincode matching the pattern parses to 600000 plus its last two digits. */
  lemma PatternValue(s: string)
    requires MatchesPattern(s)
    ensures ParseInt(s) == Some(600000 + 10 * DigitValue(s[4]) + DigitValue(s[5]))
  {
    assert Value(s, 10) == 600000 + 10 * DigitValue(s[4]) + DigitValue(s[5]) by {
      assert s[..4][0] == s[0] == '6' && s[1] == s[2] == s[3] == '0';
      SixDigitValue(s);
    }
    assert ParseInt(s) == Some(Value(s, 10)) by {
      assert "" + (s + "") == s;
      DecimalPrefix("", s, "");
    }
  }

  /** The script check once the parsed value is known. */
  lemma AcceptedByValue(s: string, v: int)
    requires ParseInt(s) == Some(v)
    ensures PincodeAccepted(s) <==> 600001 <= v <= 600100
  {
  }

  /** `parseInt` of six decimal digits (a leading `0` allowed) between white space and
      text that does not start with a digit. */
  lemma SixDigitPincode(s: string, ws: string, d: string, rest: string, v: int)
    requires s == ws + (d + rest)
    requires forall i :: 0 <= i < |ws| ==> IsStrWhiteSpace(ws[i])
    requires |d| == 6 && forall i :: 0 <= i < 6 ==> IsDecimalDigit(d[i])
    requires rest == [] || !IsDecimalDigit(rest[0])
    requires v == 100000 * DigitValue(d[0]) + 10000 * DigitValue(d[1]) + 1000 * DigitValue(d[2])
                 + 100 * DigitValue(d[3]) + 10 * DigitValue(d[4]) + DigitValue(d[5])
    ensures ParseInt(s) == Some(v)
    ensures PincodeAccepted(s) <==> 600001 <= v <= 600100
  {
    assert Value(d, 10) == v by {
      SixDigitValue(d);
    }
    assert ParseInt(s) == Some(v) by {
      assert (d + rest)[1] == d[1];
      DecimalPrefix(ws, d, rest);
    }
    AcceptedByValue(s, v);
  }

  /** On a pincode the pattern admits, the script check fails only for "600000". */
  lemma PatternThenScript(s: string)
    requires MatchesPattern(s)
    ensures PincodeAccepted(s) <==> s != "600000"
  {
    PatternValue(s);
    AcceptedByValue(s, 600000 + 10 * DigitValue(s[4]) + DigitValue(s[5]));
    if s[4] == '0' && s[5] == '0' {
      assert s == s[..4] + [s[4], s[5]];
    }
  }

  /** Every number in 600001..600099 written as six digits passes both checks and
      parses back to itself. */
  lemma BothChecksAdmit(n: int)
    requires 600001 <= n <= 600099
    ensures var s := PatternPincode(n);
      MatchesPattern(s) && PincodeAccepted(s) && ParseInt(s) == Some(n)
  {
    var s := PatternPincode(n);
    PatternValue(s);
    AcceptedByValue(s, n);
  }

  /** A digit character is the character of its value. */
  lemma DigitCharOfValue(c: char)
    requires IsDecimalDigit(c)
    ensures DigitChar(DigitValue(c)) == c
  {
  }

  /** A pincode passing both checks is the six-digit form of a number in
      600001..600099: the two checks together admit exactly that range. */
  lemma BothChecksOnlyAdmit(s: string)
    requires MatchesPattern(s) && PincodeAccepted(s)
    ensures ParseInt(s).Some? && 600001 <= ParseInt(s).value <= 600099
    ensures s == PatternPincode(ParseInt(s).value)
  {
    var n := 600000 + 10 * DigitValue(s[4]) + DigitValue(s[5]);
    PatternValue(s);
    AcceptedByValue(s, n);
    var t := PatternPincode(n);
    assert t == s by {
      assert (n - 600000) / 10 == DigitValue(s[4]) && (n - 600000) % 10 == DigitValue(s[5]);
      DigitCharOfValue(s[4]);
      DigitCharOfValue(s[5]);
      assert s == s[..4] + [s[4], s[5]];
    }
  }

  /** 600000 passes the pattern but not the script check; 600100 the other way round. */
  lemma ChecksDisagreeAtTheEnds()
    ensures MatchesPattern("600000") && !PincodeAccepted("600000")
    ensures !MatchesPattern("600100") && PincodeAccepted("600100")
  {
    PatternThenScript("600000");
    assert "600100"[..4] != "6000" by {
      assert "600100"[..4][3] == '1';
    }
    SixDigitPincode("600100", "", "600100", "", 600100);
  }

  /** `parseInt("0x927C1")` is 600001. */
  lemma HexPincode(s: string)
    requires s == "0x927C1"
    ensures ParseInt(s) == Some(600001)
  {
    var h := "927C1";
    assert Value(h, 16) == 600001 by {
      FiveDigitValue(h, 16);
    }
    assert forall i :: 0 <= i < |h| ==> IsRadixDigit(h[i], 16);
    HexPrefix("", 'x', h, "");
    assert "" + (['0', 'x'] + (h + "")) == s;
  }

  /** A leading zero passes the script check but not the pattern: "0600050" is 600050. */
  lemma LeadingZeroPincode(s: string)
    requires s == "0600050"
    ensures ParseInt(s) == Some(600050) && PincodeAccepted(s) && !MatchesPattern(s)
  {
    var d := "600050";
    assert s == ['0'] + d;
    assert Value(d, 10) == 600050 by {
      SixDigitValue(d);
    }
    ValueLeadingZero(d, 10);
    assert s[1] == '6';
    assert forall i :: 0 <= i < |s| ==> IsDecimalDigit(s[i]);
    DecimalPrefix("", s, "");
    assert "" + (s + "") == s;
    AcceptedByValue(s, 600050);
  }

  /** Because `parseInt` has no radix, the script check accepts trailing text, leading
      white space, a fraction and hexadecimal. */
  lemma LenientPincodesAccepted()
    ensures forall s | s in {"600050abc", " 600050", "600050.9", "0x927C1"} :: PincodeAccepted(s)
  {
    forall s | s in {"600050abc", " 600050", "600050.9", "0x927C1"} ensures PincodeAccepted(s) {
      if s == "600050abc" {
        SixDigitPincode(s, "", "600050", "abc", 600050);
      } else if s == " 600050" {
        SixDigitPincode(s, " ", "600050", "", 600050);
      } else if s == "600050.9" {
        SixDigitPincode(s, "", "600050", ".9", 600050);
      } else {
        HexPincode(s);
        AcceptedByValue(s, 600001);
      }
    }
  }

  /** Letters and the numbers just outside the range are rejected. */
  lemma OutOfRangePincodesRejected()
    ensures forall s | s in {"abcde", "599999", "600101"} :: !PincodeAccepted(s)
  {
    forall s | s in {"abcde", "599999", "600101"} ensures !PincodeAccepted(s) {
      if s == "abcde" {
        NoDigits("", s);
        assert "" + s == s;
      } else if s == "599999" {
        SixDigitPincode(s, "", s, "", 599999);
      } else {
        SixDigitPincode(s, "", s, "", 600101);
      }
    }
  }

  /** An empty pincode fails both the pattern predicate and the script check. */
  lemma EmptyPincodeRejected()
    ensures !MatchesPattern("") && !PincodeAccepted("")
  {
  }

  /** Blank input, a bare sign and a bare `0x` all parse to `NaN`, so the script check
      rejects them. */
  lemma NaNPincodesRejected()
    ensures forall s | s in {"", "   ", "-", "+x", "0x"} :: ParseInt(s).None? && !PincodeAccepted(s)
  {
    forall s | s in {"", "   ", "-", "+x", "0x"} ensures ParseInt(s).None? && !PincodeAccepted(s) {
      if s == "" || s == "   " {
        NoDigits(s, "");
        assert s + "" == s;
      } else if s == "-" {
        SignWithoutDigits("", '-', "");
        assert "" + (['-'] + "") == s;
      } else if s == "+x" {
        SignWithoutDigits("", '+', "x");
        assert "" + (['+'] + "x") == s;
      } else {
        HexWithoutDigits("", 'x', "");
        assert "" + (['0', 'x'] + "") == s;
      }
    }
  }

  /** The script looks only at the pincode: two forms with the same pincode get the same
      decision, and an accepted form is submitted exactly as read. */
  lemma OnlyPincodeInspected(a: AddressInput, b: AddressInput)
    requires a.pincode == b.pincode
    ensures Submit(a).Submitted? <==> Submit(b).Submitted?
    ensures Submit(a).Submitted? ==> Submit(a).address == a
  {
  }

  /** Requiredness comes only from the attributes: the script submits a form whose
      address line 1 and area are empty. */
  lemma RequiredOnlyByAttributes()
    ensures var a := AddressInput("", "", "", "600050", "");
      !RequiredFieldsPresent(a) && Submit(a) == Submitted(a)
  {
    SixDigitPincode("600050", "", "600050", "", 600050);
  }
}
