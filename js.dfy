/** The parts of JavaScript's value semantics the application's decisions depend on:
    truthiness, the `||` operator and the `%` operator on numbers. Numbers are integers
    here (prices and stock in whole units); see the README for what that leaves out. */
module Js {

  /** A JSON-ish value as it arrives in a request body or sits in a form's state.
      `Null` stands for both `null` and `undefined` (a missing key). */
  datatype Value = Str(s: string) | Num(n: int) | Null

  /** JavaScript truthiness: "" , 0, null and undefined are falsy. */
  predicate Truthy(v: Value)
  {
    match v
    case Str(s) => s != ""
    case Num(n) => n != 0
    case Null => false
  }

  /** `a || b`: the left operand when it is truthy, otherwise the right one. */
  function Or(a: Value, b: Value): (r: Value)
    ensures Truthy(a) ==> r == a
    ensures !Truthy(a) ==> r == b
    ensures Truthy(r) <==> Truthy(a) || Truthy(b)
  {
    if Truthy(a) then a else b
  }

  /** A JavaScript number restricted to integers, with the one special value that the
      carousel can produce. */
  datatype Number = Finite(n: int) | NaN

  /** `a + k`. */
  function AddInt(a: Number, k: int): (r: Number)
    ensures r.NaN? <==> a.NaN?
    ensures a.Finite? ==> r == Finite(a.n + k)
  {
    match a
    case Finite(n) => Finite(n + k)
    case NaN => NaN
  }

  /** `a % b` for a non-negative divisor (a length): the remainder truncates toward zero, so it takes the sign of
      `a`; a zero divisor or a NaN operand gives NaN. */
  function Rem(a: Number, b: nat): (r: Number)
    ensures r.NaN? <==> a.NaN? || b == 0
    ensures a.Finite? && b != 0 && a.n >= 0 ==> r == Finite(a.n % b) && 0 <= r.n < b
    ensures a.Finite? && b != 0 && a.n < 0 ==> r.Finite? && -(b as int) < r.n <= 0
  {
    match a
    case NaN => NaN
    case Finite(n) =>
      if b == 0 then NaN
      else if n >= 0 then Finite(n % b)
      else Finite(-((-n) % b))
  }
}
