/** The few pieces of JavaScript value semantics that the feed generator relies on:
    dynamically typed values (for the escaper's `typeof` guard), optional properties,
    truthiness of strings and the `a || b` default idiom, and number-to-string coercion. */
module Js {

  /** An optional record property: `None` is a property that is absent, `undefined` or `null`. */
  datatype Option<+T> = None | Some(value: T)

  /** The kinds of value a JavaScript function may be handed. Only `JsString` is a string
      for `typeof`; objects, arrays and functions are all `JsObject`. */
  datatype JsValue =
    | JsString(s: string)
    | JsNumber(n: int)
    | JsBoolean(b: bool)
    | JsNull
    | JsUndefined
    | JsObject

  /** A string is truthy in JavaScript exactly when it is not empty; an absent property is falsy. */
  predicate Truthy(o: Option<string>) {
    o.Some? && o.value != ""
  }

  /** `o || fallback` for an optional string property. */
  function Or(o: Option<string>, fallback: string): (r: string)
    ensures Truthy(o) ==> r == o.value
    ensures !Truthy(o) ==> r == fallback
    ensures r == fallback || (o.Some? && r == o.value)
  {
    if o.Some? && o.value != "" then o.value else fallback
  }

  predicate IsDigit(c: char) {
    '0' <= c <= '9'
  }

  function DigitChar(d: nat): (c: char)
    requires d < 10
    ensures IsDigit(c)
  {
    "0123456789"[d]
  }

  /** Decimal rendering of a non-negative integer, as a template literal renders a number
      that holds an integer below 2^53: a JavaScript number is exact only below 2^53 and is
      written in exponent form (`1e+21`) from 10^21 on. */
  function DecimalString(n: nat): (r: string)
    ensures |r| >= 1
    ensures forall i :: 0 <= i < |r| ==> IsDigit(r[i])
    ensures |r| > 1 ==> r[0] != '0'
  {
    if n < 10 then [DigitChar(n)] else DecimalString(n / 10) + [DigitChar(n % 10)]
  }

  /** The value a digit character stands for. */
  function DigitValue(c: char): nat
    requires IsDigit(c)
  {
    (c as int) - ('0' as int)
  }

  /** Reading a string of decimal digits back as a number. */
  function ParseDecimal(s: string): nat
    requires forall i :: 0 <= i < |s| ==> IsDigit(s[i])
  {
    if s == [] then 0 else 10 * ParseDecimal(s[..|s| - 1]) + DigitValue(s[|s| - 1])
  }

  lemma {:induction false} DecimalStringRoundTrip(n: nat)
    ensures ParseDecimal(DecimalString(n)) == n
  {
    var r := DecimalString(n);
    if n < 10 {
      assert "0123456789"[n] as int - '0' as int == n;
    } else {
      DecimalStringRoundTrip(n / 10);
      var d := n % 10;
      assert r[..|r| - 1] == DecimalString(n / 10);
      assert "0123456789"[d] as int - '0' as int == d;
    }
  }
}
