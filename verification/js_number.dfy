/**
  `parseFloat` over the decimal strings the value extractors feed it, with exact
  rational arithmetic standing in for IEEE doubles. `None` stands for `NaN`.
*/
module JsNumber {
  import opened Wrappers
  import opened JsText

  predicate AllDigits(s: string) {
    forall i :: 0 <= i < |s| ==> IsDigit(s[i])
  }

  function Pow10(n: nat): (r: nat)
    ensures r >= 1
  {
    if n == 0 then 1 else 10 * Pow10(n - 1)
  }

  /** The number a string of decimal digits denotes. */
  function DigitsValue(ds: string): nat
    requires AllDigits(ds)
  {
    if |ds| == 0 then 0 else DigitsValue(ds[..|ds| - 1]) * 10 + (ds[|ds| - 1] as int - '0' as int)
  }

  /** The longest prefix of `s` made of digits. */
  function LeadingDigits(s: string): (r: string)
    ensures StartsWith(s, r) && AllDigits(r)
    ensures |r| < |s| ==> !IsDigit(s[|r|])
  {
    if |s| > 0 && IsDigit(s[0]) then [s[0]] + LeadingDigits(s[1..]) else ""
  }

  /**
    `parseFloat`: after leading whitespace, an optional sign, then digits with an
    optional fraction, at least one digit in all; anything else gives `NaN`.
  */
  function ParseFloat(s: string): (r: Option<real>)
    ensures var t := TrimStart(s);
      (|t| == 0 || !(IsDigit(t[0]) || t[0] == '+' || t[0] == '-' || t[0] == '.')) ==> r.None?
  {
    var t := TrimStart(s);
    if |t| > 0 && t[0] == '-' then
      match ParseUnsigned(t[1..])
      case Some(m) => Some(-m)
      case None => None
    else if |t| > 0 && t[0] == '+' then ParseUnsigned(t[1..])
    else ParseUnsigned(t)
  }

  /** Digits with an optional fraction at the start of `u`, at least one digit in all. */
  function ParseUnsigned(u: string): (r: Option<real>)
    ensures (|u| == 0 || !(IsDigit(u[0]) || u[0] == '.')) ==> r.None?
  {
    var whole := LeadingDigits(u);
    var rest := u[|whole|..];
    var fraction := if |rest| > 0 && rest[0] == '.' then LeadingDigits(rest[1..]) else "";
    if |whole| == 0 && |fraction| == 0 then None
    else Some(DecimalValue(whole, fraction))
  }

  /** The value of `whole.fraction`. */
  function DecimalValue(whole: string, fraction: string): real
    requires AllDigits(whole) && AllDigits(fraction)
  {
    DigitsValue(whole) as real
      + (if |fraction| == 0 then 0.0 else DigitsValue(fraction) as real / Pow10(|fraction|) as real)
  }

  lemma LeadingDigitsOfDigits(s: string)
    requires AllDigits(s)
    ensures LeadingDigits(s) == s
  {
    if |s| > 0 {
      LeadingDigitsOfDigits(s[1..]);
    }
  }

  /** A non-empty digit string parses to the number it denotes. */
  lemma ParseDigits(s: string)
    requires |s| > 0 && AllDigits(s)
    ensures ParseFloat(s) == Some(DigitsValue(s) as real)
  {
    assert !IsSpace(s[0]);
    assert TrimStart(s) == s;
    assert s[0] != '-' && s[0] != '+';
    LeadingDigitsOfDigits(s);
    assert ParseUnsigned(s) == Some(DecimalValue(s, ""));
  }

  /** A string starting with `$` is not a number. */
  lemma DollarIsNaN(s: string)
    requires |s| > 0 && s[0] == '$'
    ensures ParseFloat(s) == None
  {
    assert TrimStart(s) == s;
  }
}
