/** The slice of JavaScript's value semantics that force-bounds relies on:
    numbers with NaN and the two infinities, the relational operators on
    numbers, `Math.min`/`Math.max`, `typeof v === 'number'` and truthiness.
    Rounding and the sign of zero play no part (the library only compares),
    so a finite number is a `real`.
 */
module JsValues {

  /** A JavaScript number, up to rounding and the sign of zero. */
  datatype Num = NaN | NegInf | Fin(r: real) | PosInf

  /** A JavaScript value, as far as `typeof` and truthiness tell values apart.
      `Obj` stands for every object, array and function: all of them are truthy. */
  datatype JsVal = Number(n: Num) | Undefined | Null | Bool(b: bool) | Str(s: string) | Obj

  /** `a < b` on numbers: false whenever either side is NaN. */
  predicate Lt(a: Num, b: Num) {
    match (a, b)
    case (NaN, _) => false
    case (_, NaN) => false
    case (NegInf, NegInf) => false
    case (NegInf, _) => true
    case (_, NegInf) => false
    case (PosInf, _) => false
    case (_, PosInf) => true
    case (Fin(x), Fin(y)) => x < y
  }

  /** `a <= b` on numbers: false whenever either side is NaN, otherwise `!(b < a)`. */
  predicate Le(a: Num, b: Num) {
    !a.NaN? && !b.NaN? && !Lt(b, a)
  }

  /** `a === b` on numbers: NaN equals nothing, not even itself. */
  predicate StrictEq(a: Num, b: Num) {
    !a.NaN? && a == b
  }

  /** `Math.min(a, b)`: NaN if either argument is NaN, otherwise the smaller one. */
  function MathMin(a: Num, b: Num): (r: Num)
    ensures r.NaN? <==> a.NaN? || b.NaN?
    ensures !r.NaN? ==> (r == a || r == b) && Le(r, a) && Le(r, b)
  {
    if a.NaN? || b.NaN? then NaN
    else if Lt(b, a) then b
    else a
  }

  /** `Math.max(a, b)`: NaN if either argument is NaN, otherwise the larger one. */
  function MathMax(a: Num, b: Num): (r: Num)
    ensures r.NaN? <==> a.NaN? || b.NaN?
    ensures !r.NaN? ==> (r == a || r == b) && Le(a, r) && Le(b, r)
  {
    if a.NaN? || b.NaN? then NaN
    else if Lt(a, b) then b
    else a
  }

  /** JavaScript's ToBoolean: `0`, `NaN`, `undefined`, `null`, `false` and `''`
      are falsy; every other value is truthy. */
  predicate Truthy(v: JsVal) {
    match v
    case Number(n) => !n.NaN? && n != Fin(0.0)
    case Undefined => false
    case Null => false
    case Bool(b) => b
    case Str(s) => s != ""
    case Obj => true
  }

  /** `<` is a strict total order on the numbers other than NaN. */
  lemma LtStrictTotalOrder(a: Num, b: Num, c: Num)
    ensures !Lt(a, a)
    ensures Lt(a, b) ==> !Lt(b, a)
    ensures Lt(a, b) && Lt(b, c) ==> Lt(a, c)
    ensures !a.NaN? && !b.NaN? ==> Lt(a, b) || a == b || Lt(b, a)
  {
  }

  /** The falsy values are exactly the six that JavaScript lists. */
  lemma FalsyValues(v: JsVal)
    ensures !Truthy(v) <==>
      v in {Number(Fin(0.0)), Number(NaN), Undefined, Null, Bool(false), Str("")}
  {
  }
}
