/** The few JavaScript value semantics the bridge relies on: optional values
    (`undefined`), `String.prototype.slice` with a negative start, the `x || d`
    default for numbers, and the `Number()` coercion a `<` between a string and
    a number performs. */
module Js {

  /** A value that may be `undefined`. */
  datatype Option<+T> = None | Some(value: T)

  /** The index `s.slice(start)` starts at: a negative start counts back from
      the end of the string and stops at 0; a start past the end is the end. */
  function SliceStart(start: int, len: nat): nat
  {
    if start < 0 then (if len + start < 0 then 0 else len + start)
    else if start > len then len
    else start
  }

  /** `s.slice(start)`. */
  function Slice(s: string, start: int): (r: string)
    ensures |r| <= |s| && r == s[|s| - |r|..]
    ensures 0 <= start <= |s| ==> r == s[start..]
  {
    s[SliceStart(start, |s|)..]
  }

  /** `x || d` for a `number | undefined` argument: `undefined` and `0` are
      falsy and give the default, every other number is kept (NaN, also falsy
      in JavaScript, is not modelled). */
  function OrDefault(x: Option<real>, d: real): (r: real)
    ensures x.Some? && x.value != 0.0 ==> r == x.value
    ensures x.None? || x.value == 0.0 ==> r == d
    ensures d != 0.0 ==> r != 0.0
  {
    if x.Some? && x.value != 0.0 then x.value else d
  }

  predicate IsDigit(ch: char)
  {
    '0' <= ch <= '9'
  }

  predicate AllDigits(s: string)
  {
    forall i :: 0 <= i < |s| ==> IsDigit(s[i])
  }

  /** The value of a string of decimal digits, most significant first. */
  function DigitsValue(s: string): nat
    requires AllDigits(s)
  {
    if s == [] then 0
    else DigitsValue(s[..|s| - 1]) * 10 + (s[|s| - 1] as int - '0' as int)
  }

  /** `Number(v)` for a status value `v`; `None` stands for NaN. Strings of
      decimal digits and the empty string (which JavaScript reads as 0) are
      converted; `undefined` and every other string give NaN. */
  function ToNumber(v: Option<string>): (n: Option<nat>)
    ensures v.None? ==> n.None?
    ensures v == Some("") ==> n == Some(0)
    ensures n.Some? ==> v.Some? && AllDigits(v.value) && n.value == DigitsValue(v.value)
    ensures v.Some? && AllDigits(v.value) ==> n == Some(DigitsValue(v.value))
  {
    if v.Some? && AllDigits(v.value) then Some(DigitsValue(v.value)) else None
  }

  /** The decimal spelling of a natural number, without leading zeros. */
  function DecimalString(n: nat): (s: string)
    ensures |s| > 0
  {
    var digit := ('0' as int + n % 10) as char;
    if n < 10 then [digit] else DecimalString(n / 10) + [digit]
  }

  /** `Number()` reads back the number a decimal spelling stands for. */
  lemma {:induction false} ToNumberDecimal(n: nat)
    ensures AllDigits(DecimalString(n))
    ensures ToNumber(Some(DecimalString(n))) == Some(n)
  {
    var s := DecimalString(n);
    if n >= 10 {
      ToNumberDecimal(n / 10);
      var prefix := DecimalString(n / 10);
      assert s[..|s| - 1] == prefix;
      assert forall i :: 0 <= i < |s| ==> IsDigit(s[i]) by {
        forall i | 0 <= i < |s| ensures IsDigit(s[i]) {
          if i < |prefix| { assert s[i] == prefix[i]; }
        }
      }
    } else {
      assert s[..|s| - 1] == [];
      assert DigitsValue(s) == s[0] as int - '0' as int == n;
    }
  }
}
