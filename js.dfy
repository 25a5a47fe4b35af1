/** JavaScript semantics the application relies on: exceptions, `undefined`,
    `Array.prototype.filter`, `Math.round` and number-to-string conversion. */
module Js {

  /** A thrown JavaScript error, as a `catch` clause receives it: only its message is kept. */
  datatype Exception = Exception(message: string)

  /** The result of a call that may throw. */
  datatype Outcome<+T> = Ok(value: T) | Thrown(error: Exception)

  /** A property that may be `undefined`. */
  datatype Option<+T> = None | Some(value: T)

  /** A number computed by a division. A zero divisor gives an infinite or NaN
      number in JavaScript, which has no counterpart among the reals. */
  datatype Num = Finite(value: real) | NonFinite

  /** The truthiness of an optional boolean attribute: `undefined` is falsy. */
  function Truthy(b: Option<bool>): (r: bool)
    ensures r <==> b == Some(true)
  {
    b.Some? && b.value
  }

  /** `a / b` in JavaScript. */
  function Divide(a: real, b: real): (r: Num)
    ensures r.Finite? <==> b != 0.0
    ensures r.Finite? ==> r.value * b == a
  {
    if b == 0.0 then NonFinite else Finite(a / b)
  }

  /** `Math.abs`. */
  function Abs(x: real): (r: real)
    ensures r >= 0.0 && (r == x || r == -x)
  {
    if x < 0.0 then -x else x
  }

  /** `Math.round`: rounds to the nearest integer, halves upwards. */
  function Round(x: real): (r: int)
    ensures x - 0.5 < r as real <= x + 0.5
  {
    (x + 0.5).Floor
  }

  function Digit(d: nat): (c: char)
    requires d < 10
    ensures '0' <= c <= '9'
  {
    "0123456789"[d]
  }

  /** The decimal text of a natural number, without leading zeros. */
  function NatToString(n: nat): (s: string)
    ensures |s| > 0 && '0' <= s[0] <= '9'
    decreases n
  {
    if n < 10 then [Digit(n)] else NatToString(n / 10) + [Digit(n % 10)]
  }

  /** `${n}` for an integral number. */
  function IntToString(n: int): (s: string)
    ensures |s| > 0 && (s[0] == '-' <==> n < 0)
    ensures n < 0 ==> s[1..] == NatToString(-n)
  {
    if n < 0 then "-" + NatToString(-n) else NatToString(n)
  }

  /** The number a string of decimal digits denotes. */
  function DigitsValue(s: string): int
  {
    if s == [] then 0 else DigitsValue(s[..|s| - 1]) * 10 + (s[|s| - 1] as int - '0' as int)
  }

  /** The decimal text of `n` is a non-empty string of digits, with no leading zero
      except for 0 itself. */
  lemma {:induction false} NatToStringDigits(n: nat)
    ensures var s := NatToString(n);
      && |s| > 0
      && (forall i :: 0 <= i < |s| ==> '0' <= s[i] <= '9')
      && (s[0] == '0' ==> n == 0)
    decreases n
  {
    if n >= 10 {
      var prefix := NatToString(n / 10);
      NatToStringDigits(n / 10);
      var s := prefix + [Digit(n % 10)];
      assert s == NatToString(n);
      assert forall i :: 0 <= i < |s| ==> s[i] == if i < |prefix| then prefix[i] else Digit(n % 10);
    }
  }

  /** The decimal text of `n` denotes `n`. */
  lemma {:induction false} NatToStringRoundTrip(n: nat)
    ensures |NatToString(n)| > 0
    ensures DigitsValue(NatToString(n)) == n
    decreases n
  {
    if n >= 10 {
      var prefix := NatToString(n / 10);
      NatToStringRoundTrip(n / 10);
      var s := prefix + [Digit(n % 10)];
      assert s == NatToString(n);
      assert s[..|s| - 1] == prefix;
      assert DigitsValue(s) == DigitsValue(prefix) * 10 + n % 10;
    }
  }

  /** `IntToString` starts with a minus sign exactly for negative numbers, and the rest
      of the text denotes the magnitude. */
  lemma IntToStringRoundTrip(n: int)
    ensures |IntToString(n)| > 0
    ensures IntToString(n)[0] == '-' <==> n < 0
    ensures n < 0 ==> DigitsValue(IntToString(n)[1..]) == -n
    ensures n >= 0 ==> DigitsValue(IntToString(n)) == n
  {
    var s := IntToString(n);
    if n < 0 {
      var digits := NatToString(-n);
      NatToStringRoundTrip(-n);
      NatToStringDigits(-n);
      assert s == "-" + digits;
      assert s[1..] == digits;
    } else {
      NatToStringRoundTrip(n);
      NatToStringDigits(n);
      assert s == NatToString(n);
    }
  }

  /** `s.filter(p)`: the elements of `s` that satisfy `p`, in their order. */
  function Filter<T>(s: seq<T>, p: T -> bool): (r: seq<T>)
    ensures |r| <= |s|
    ensures forall i :: 0 <= i < |r| ==> r[i] in s && p(r[i])
    ensures forall j :: 0 <= j < |s| && p(s[j]) ==> s[j] in r
  {
    if s == [] then []
    else (if p(s[0]) then [s[0]] else []) + Filter(s[1..], p)
  }

  /** `Filter` works element by element: filtering a concatenation filters each part
      and keeps the parts in order. With `Filter([x], p) == if p(x) then [x] else []`
      this determines `Filter` completely, so the result is the order-preserving
      subsequence of the satisfying elements. */
  lemma {:induction false} FilterDistributes<T>(a: seq<T>, b: seq<T>, p: T -> bool)
    ensures Filter(a + b, p) == Filter(a, p) + Filter(b, p)
  {
    if a == [] {
      assert a + b == b;
    } else {
      assert (a + b)[1..] == a[1..] + b;
      FilterDistributes(a[1..], b, p);
    }
  }
}
