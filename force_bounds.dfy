/** The force-bounds library (index.js): `checkBounds` validates and orders
    a pair of interval endpoints, `check` tests inclusive containment, and
    `force` clamps a value into the interval with a fallback default.
    Each `throw` of the source is a `Failure` carrying one `BoundsError`.
 */
module ForceBounds {
  import opened JsValues

  /** The three throw sites of index.js. */
  datatype BoundsError =
    | MinNotNumber        // index.js:3
    | MaxNotNumber        // index.js:4
    | DefaultOutOfRange   // index.js:18

  datatype Result<+T> = Success(value: T) | Failure(error: BoundsError) {
    predicate IsFailure() {
      Failure?
    }

    function PropagateFailure<U>(): Result<U>
      requires Failure?
    {
      Failure(error)
    }

    function Extract(): T
      requires Success?
    {
      value
    }
  }

  /** An argument that may be omitted. */
  datatype Option<+T> = None | Some(value: T)

  /** The pair `[min, max]` that `checkBounds` returns. */
  datatype Bounds = Bounds(lo: Num, hi: Num)

  /** A JavaScript default parameter: it takes effect when the argument is
      omitted (`None`) or passed as `undefined`. */
  function OrDefault(arg: Option<JsVal>, default: JsVal): (r: JsVal)
    ensures arg == None || arg == Some(Undefined) ==> r == default
    ensures arg.Some? && arg.value != Undefined ==> r == arg.value
  {
    match arg
    case None => default
    case Some(Undefined) => default
    case Some(v) => v
  }


  /** `checkBounds(min, max)`: both endpoints must have typeof 'number'
      (the `=== NaN` half of each guard never holds, so NaN passes); the
      pair comes back swapped exactly when `max < min`. */
  function CheckBounds(min: JsVal, max: JsVal): (r: Result<Bounds>)
    ensures r.Failure? <==> !min.Number? || !max.Number?
    ensures r == Failure(MinNotNumber) <==> !min.Number?
    ensures r.Success? ==>
      multiset{r.value.lo, r.value.hi} == multiset{min.n, max.n}
  {
    if !min.Number? then Failure(MinNotNumber)
    else if !max.Number? then Failure(MaxNotNumber)
    else if Lt(max.n, min.n) then Success(Bounds(max.n, min.n))
    else Success(Bounds(min.n, max.n))
  }

  /** `check(v, min, max = min)`: whether `min <= v <= max` after the bounds
      are put in order. The value is a number here; JavaScript's coercion of
      other operands in `>=` and `<=` is not part of this model. */
  function Check(v: Num, min: JsVal, max: Option<JsVal>): (r: Result<bool>)
    ensures r.Failure? <==> CheckBounds(min, OrDefault(max, min)).Failure?
    ensures r == Success(true) ==> !v.NaN? && min.Number? && !min.n.NaN?
  {
    var b :- CheckBounds(min, OrDefault(max, min));
    Success(Le(b.lo, v) && Le(v, b.hi))
  }

  /** `force(v, min, max = min, _default = min)`. The default is evaluated
      from the `min` argument as passed, before the bounds are reordered;
      it is validated before `v` is looked at. A non-number `v` yields
      `v || _default`; a number (NaN included) is clamped with
      `Math.max(Math.min(v, max), min)`. */
  function Force(v: JsVal, min: JsVal, max: Option<JsVal>, default: Option<Num>): (r: Result<JsVal>)
    ensures r.Failure? ==> r.error == DefaultOutOfRange || CheckBounds(min, OrDefault(max, min)).Failure?
    ensures r.Success? && v.Number? ==> r.value.Number?
  {
    var b :- CheckBounds(min, OrDefault(max, min));
    var d := if default.Some? then default.value else min.n;
    match Check(d, Number(b.lo), Some(Number(b.hi)))
    case Failure(e) => Failure(e)
    case Success(inRange) =>
      if !inRange then Failure(DefaultOutOfRange)
      else if !v.Number? then Success(if Truthy(v) then v else Number(d))
      else
        var forced := MathMin(v.n, b.hi);
        var forced := MathMax(forced, b.lo);
        Success(Number(forced))
  }
}
