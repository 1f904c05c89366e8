/** JavaScript value semantics shared by every module of the model.

    Numbers are exact reals: the IEEE-754 rounding of the JavaScript code is not
    modelled, and NaN does not exist. A field that a JSON object may lack is an
    `Option`. The `||` and `?:` tests of the JavaScript code are written with the
    truthiness predicates below. */
module Js {

  datatype Option<+T> = None | Some(value: T)

  /** A number is truthy when it is present and not 0. */
  predicate Truthy(x: Option<real>) {
    x.Some? && x.value != 0.0
  }

  /** A string is truthy when it is present and not empty. */
  predicate StrTruthy(x: Option<string>) {
    x.Some? && x.value != ""
  }

  /** `x || 0`: the value when it is truthy, otherwise 0. */
  function OrZero(x: Option<real>): (r: real)
    ensures r != 0.0 <==> Truthy(x)
    ensures Truthy(x) ==> r == x.value
  {
    if Truthy(x) then x.value else 0.0
  }

  /** `a || b || null` on optional numbers: the first truthy one, else null. */
  function FirstTruthy(a: Option<real>, b: Option<real>): (r: Option<real>)
    ensures r.None? || Truthy(r)
    ensures r.None? <==> !Truthy(a) && !Truthy(b)
    ensures Truthy(a) ==> r == a
    ensures !Truthy(a) && Truthy(b) ==> r == b
  {
    if Truthy(a) then a else if Truthy(b) then b else None
  }

  /** `a || b || null` on optional strings. */
  function FirstTruthyStr(a: Option<string>, b: Option<string>): (r: Option<string>)
    ensures r.None? || StrTruthy(r)
    ensures r.None? <==> !StrTruthy(a) && !StrTruthy(b)
    ensures StrTruthy(a) ==> r == a
    ensures !StrTruthy(a) && StrTruthy(b) ==> r == b
  {
    if StrTruthy(a) then a else if StrTruthy(b) then b else None
  }

  /** `a || fallback` on an optional string with a string fallback. */
  function StrOr(a: Option<string>, fallback: string): (r: string)
    ensures StrTruthy(a) ==> r == a.value
    ensures !StrTruthy(a) ==> r == fallback
    ensures fallback != "" ==> r != ""
  {
    if StrTruthy(a) then a.value else fallback
  }

  /** Math.abs */
  function Abs(x: real): (r: real)
    ensures r >= 0.0
    ensures r == x || r == -x
  {
    if x < 0.0 then -x else x
  }

  /** Math.min */
  function Min(a: real, b: real): (r: real)
    ensures r <= a && r <= b
    ensures r == a || r == b
  {
    if a <= b then a else b
  }

  /** Math.max */
  function Max(a: real, b: real): (r: real)
    ensures r >= a && r >= b
    ensures r == a || r == b
  {
    if a >= b then a else b
  }

  /** Math.round: the nearest integer, halves rounded towards +infinity. */
  function Round(x: real): (r: int)
    ensures r as real - 0.5 <= x < r as real + 0.5
  {
    (x + 0.5).Floor
  }

  /** Rounding never reverses the order of two numbers. */
  lemma RoundMonotone(a: real, b: real)
    requires a <= b
    ensures Round(a) <= Round(b)
  {
  }

  /** Sum of a sequence, adding from the left as a running total does. */
  function Sum(s: seq<real>): real
  {
    if s == [] then 0.0 else Sum(s[..|s| - 1]) + s[|s| - 1]
  }

  /** Appending one value adds it to the sum. */
  lemma SumSnoc(s: seq<real>, x: real)
    ensures Sum(s + [x]) == Sum(s) + x
  {
    assert (s + [x])[..|s|] == s;
  }
}
