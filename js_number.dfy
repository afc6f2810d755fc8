/** The two number/text conversions the car form relies on: `String(n)` when a
    car's price and stock are loaded into the form, and `Number(s)` when the form
    is submitted. Numbers are integers here; `None` stands for `NaN`. */
module JsNumber {
  import opened Wrappers
  import opened Text

  predicate IsDigit(ch: char) {
    '0' <= ch <= '9'
  }

  predicate AllDigits(s: string) {
    forall i :: 0 <= i < |s| ==> IsDigit(s[i])
  }

  function DigitValue(ch: char): (d: nat)
    requires IsDigit(ch)
    ensures d < 10
  {
    ch as int - '0' as int
  }

  function DigitChar(d: nat): (ch: char)
    requires d < 10
    ensures IsDigit(ch) && DigitValue(ch) == d
  {
    ('0' as int + d) as char
  }

  /** The decimal digits of `n`, most significant first, without leading zeros. */
  function Decimal(n: nat): (s: string)
    ensures s != [] && AllDigits(s)
    ensures |s| > 1 ==> s[0] != '0'
  {
    if n < 10 then [DigitChar(n)] else Decimal(n / 10) + [DigitChar(n % 10)]
  }

  /** The value of a string of decimal digits; the empty string is worth 0. */
  function DigitsValue(s: string): nat
    requires AllDigits(s)
  {
    if s == [] then 0 else 10 * DigitsValue(s[..|s| - 1]) + DigitValue(s[|s| - 1])
  }

  /** `String(n)` for an integer `n`. */
  function ToString(n: int): (s: string)
    ensures Clean(s) && s != []
  {
    if n < 0 then "-" + Decimal(-n) else Decimal(n)
  }

  /** `Number(s)` on strings that spell an integer: surrounding whitespace is
      ignored, a blank string is 0, an optional sign may precede the digits; any
      other string is `NaN`. */
  function ToNumber(s: string): (r: Option<int>)
    ensures AllSpace(s) ==> r == Some(0)
  {
    var t := Trim(s);
    if t == [] then Some(0)
    else if (t[0] == '-' || t[0] == '+') && |t| > 1 && AllDigits(t[1..]) then
      assert IsDigit(t[1..][0]);
      var v: int := DigitsValue(t[1..]);
      Some(if t[0] == '-' then -v else v)
    else if AllDigits(t) then
      assert IsDigit(t[0]);
      Some(DigitsValue(t))
    else None
  }

  /** A string that starts with neither whitespace, a sign nor a digit is `NaN`. */
  lemma NotANumber(s: string)
    requires s != [] && !IsSpace(s[0])
    requires !IsDigit(s[0]) && s[0] != '-' && s[0] != '+'
    ensures ToNumber(s) == None
  {
    TrimSlice(s);
    assert Trim(s)[0] == s[0];
  }

  /** Reading back the digits of `n` gives `n`. */
  lemma {:induction false} DecimalRoundTrip(n: nat)
    ensures DigitsValue(Decimal(n)) == n
  {
    if n >= 10 {
      var s := Decimal(n);
      assert s[..|s| - 1] == Decimal(n / 10);
      DecimalRoundTrip(n / 10);
    }
  }

  /** `Number(String(n)) == n`: a number written into the form reads back unchanged. */
  lemma NumberOfString(n: int)
    ensures ToNumber(ToString(n)) == Some(n)
  {
    var s := ToString(n);
    TrimClean(s);
    if n < 0 {
      assert s[1..] == Decimal(-n);
      DecimalRoundTrip(-n);
    } else {
      DecimalRoundTrip(n);
    }
  }
}
