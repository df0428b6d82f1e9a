/**
 * The few PHP runtime notions the application relies on: nullable values,
 * truthiness (what `if ($x)` tests) and the `(string)` cast used in error
 * messages.
 */
module Php {

  /** A PHP value that may be `null`. */
  datatype Option<+T> = None | Some(value: T)

  /** PHP truthiness of a string: only the empty string and "0" are falsy. */
  predicate TruthyString(s: string) {
    s != "" && s != "0"
  }

  /**
   * The PHP values a request attribute can hold, as far as the application
   * distinguishes them. An object is known by its class name (what
   * `get_class` returns) and an identity handle.
   */
  datatype Value =
    | Null
    | Bool(b: bool)
    | Int(i: int)
    | Str(text: string)
    | Obj(cls: string, handle: nat)

  /** PHP truthiness: `null`, `false`, `0`, "" and "0" are falsy; objects are truthy. */
  predicate Truthy(v: Value) {
    match v
    case Null => false
    case Bool(b) => b
    case Int(i) => i != 0
    case Str(s) => TruthyString(s)
    case Obj(_, _) => true
  }

  predicate IsDigit(c: char) {
    '0' <= c <= '9'
  }

  /** The value of a decimal digit character. */
  function DigitValue(c: char): nat
    requires IsDigit(c)
  {
    c as int - '0' as int
  }

  /** The character of the decimal digit `d`; `DigitValue` reads it back. */
  function DigitChar(d: nat): (c: char)
    requires d < 10
    ensures IsDigit(c) && DigitValue(c) == d
  {
    ('0' as int + d) as char
  }

  /** The number a string of decimal digits denotes, most significant digit first. */
  function DigitsValue(s: string): nat
    requires forall k :: 0 <= k < |s| ==> IsDigit(s[k])
    decreases |s|
  {
    if s == [] then 0 else 10 * DigitsValue(s[..|s| - 1]) + DigitValue(s[|s| - 1])
  }

  /** The decimal form PHP prints for a natural number: digits only, no leading zero. */
  function NatToString(n: nat): (s: string)
    ensures |s| > 0
    ensures forall k :: 0 <= k < |s| ==> IsDigit(s[k])
    ensures n > 0 ==> s[0] != '0'
    ensures n < 10 <==> |s| == 1
    decreases n
  {
    if n < 10 then [DigitChar(n)] else NatToString(n / 10) + [DigitChar(n % 10)]
  }

  /** `(string) $i` for an integer: a minus sign for negatives, then the digits. */
  function IntToString(i: int): (s: string)
    ensures |s| > 0
    ensures (s[0] == '-') <==> i < 0
    ensures forall k :: 0 < k < |s| ==> IsDigit(s[k])
    ensures i != 0 ==> TruthyString(s)
  {
    if i < 0 then "-" + NatToString(-i) else NatToString(i)
  }

  /** The digits `NatToString` produces denote `n`. */
  lemma {:induction false} NatToStringValue(n: nat)
    ensures DigitsValue(NatToString(n)) == n
    decreases n
  {
    if n >= 10 {
      var s := NatToString(n);
      assert s[..|s| - 1] == NatToString(n / 10);
      NatToStringValue(n / 10);
    }
  }

  /** `(string) $i` is the decimal form of `i`: the digits after an optional minus sign denote `|i|`. */
  lemma IntToStringValue(i: int)
    ensures i < 0 ==> IntToString(i)[0] == '-' && DigitsValue(IntToString(i)[1..]) == -i
    ensures i >= 0 ==> DigitsValue(IntToString(i)) == i
  {
    if i < 0 {
      assert IntToString(i)[1..] == NatToString(-i);
      NatToStringValue(-i);
    } else {
      NatToStringValue(i);
    }
  }

  /** Different numbers print differently. */
  lemma IntToStringInjective(i: int, j: int)
    ensures IntToString(i) == IntToString(j) ==> i == j
  {
    IntToStringValue(i);
    IntToStringValue(j);
  }

  /**
   * `(string) $v` for a value that is not an object (objects are named by
   * their class instead, so the cast is never applied to them here).
   */
  function StringCast(v: Value): (s: string)
    requires !v.Obj?
    ensures v.Str? ==> s == v.text
    ensures v.Bool? ==> s == (if v.b then "1" else "")
    ensures v.Null? ==> s == ""
    ensures Truthy(v) <==> TruthyString(s)
  {
    match v
    case Null => ""
    case Bool(b) => if b then "1" else ""
    case Int(i) => IntToString(i)
    case Str(text) => text
  }
}
