/**
 * JavaScript's parseInt, as the scorer (`parseInt(parsed.warranty)`) and the
 * server's port fallback (`parseInt(process.env.PORT, 10)`) use it.
 * NaN is `None`; the float rounding of very long digit strings is not modelled.
 */
module JsNumber {

  import opened Wrappers
  import opened Text

  /** The radix argument: omitted (so a "0x" prefix switches to base 16), or 10. */
  datatype RadixArg = Omitted | Ten

  /** parseInt(s, radix): skip leading white space, read an optional sign, strip a "0x"
      prefix when the radix was omitted, then read the longest run of digits; no digit is NaN. */
  function ParseInt(s: string, radix: RadixArg): (n: Option<int>)
    ensures n.Some? ==> exists k :: 0 <= k < |s| && IsDigit(s[k])
  {
    ParseFrom(s, 0, radix)
  }

  /** parseInt on `s[i..]`: white space is skipped one character at a time. */
  function ParseFrom(s: string, i: nat, radix: RadixArg): (n: Option<int>)
    requires i <= |s|
    ensures n.Some? ==> exists k :: i <= k < |s| && IsDigit(s[k])
    decreases |s| - i
  {
    if i < |s| && IsSpace(s[i]) then ParseFrom(s, i + 1, radix)
    else
      var negative := i < |s| && s[i] == '-';
      var j := if i < |s| && (s[i] == '-' || s[i] == '+') then i + 1 else i;
      var hex := radix == Omitted && j + 1 < |s| && s[j] == '0' && (s[j + 1] == 'x' || s[j + 1] == 'X');
      var k := if hex then j + 2 else j;
      var b := if hex then Hexadecimal else Decimal;
      var e := RunEnd(s, k, b);
      if e == k then None
      else
        var magnitude: int := Value(s[k..e], b);
        Some(if negative then -magnitude else magnitude)
  }

  /** A string that starts with a digit string `d` and goes on with something that neither
      extends the number nor turns it into a hexadecimal prefix parses to the value of `d`;
      with radix 10 an "x" after the digits is no prefix. */
  lemma {:induction false} ParseIntOfLeadingDigits(d: string, rest: string, radix: RadixArg)
    requires IsDigits(d)
    requires rest == [] || (!IsDigit(rest[0]) && (radix == Ten || (rest[0] != 'x' && rest[0] != 'X')))
    ensures ParseInt(d + rest, radix) == Some(Value(d, Decimal))
  {
    var s := d + rest;
    assert s[0] == d[0];
    assert !IsSpace(s[0]);
    assert radix == Omitted && |s| > 1 ==> s[1] != 'x' && s[1] != 'X' by {
      if |d| > 1 { assert s[1] == d[1]; } else if |s| > 1 { assert s[1] == rest[0]; }
    }
    RunEndOfDigits(d, rest);
  }

  /** A string whose first character is neither white space, a sign nor a digit is NaN. */
  lemma ParseIntOfNonNumeric(s: string, radix: RadixArg)
    requires |s| > 0 && !IsSpace(s[0]) && !IsDigit(s[0]) && s[0] != '-' && s[0] != '+'
    ensures ParseInt(s, radix) == None
  {
  }
}
