/** What `checkBounds`, `check` and `force` promise, stated against
    definitions that do not share their code: `Between` (containment in
    either order of the endpoints) and `Clamp` (clamping by cases).
 */
module ForceBoundsProperties {
  import opened JsValues
  import opened ForceBounds

  /** `v` lies between `a` and `b`, inclusive, whichever of the two is smaller. */
  predicate Between(v: Num, a: Num, b: Num) {
    (Le(a, v) && Le(v, b)) || (Le(b, v) && Le(v, a))
  }

  /** Clamping by cases: below the interval gives its low end, above gives its
      high end, inside gives the value itself. */
  function Clamp(v: Num, lo: Num, hi: Num): (r: Num) {
    if Lt(v, lo) then lo else if Lt(hi, v) then hi else v
  }

  /** The interval `force` and `check` work with: the endpoints in order. */
  function Normalized(a: Num, b: Num): (r: Bounds) {
    CheckBounds(Number(a), Number(b)).value
  }

  // ---------------------------------------------------------------- checkBounds

  /** Both endpoints must be numbers; `min` is examined first. */
  lemma CheckBoundsRejects(min: JsVal, max: JsVal)
    ensures !min.Number? ==> CheckBounds(min, max) == Failure(MinNotNumber)
    ensures min.Number? && !max.Number? ==> CheckBounds(min, max) == Failure(MaxNotNumber)
    ensures min.Number? && max.Number? ==> CheckBounds(min, max).Success?
  {
  }

  /** For endpoints other than NaN the result is ordered and holds the two
      inputs; they are swapped exactly when `max < min`. */
  lemma CheckBoundsSorts(a: Num, b: Num)
    requires !a.NaN? && !b.NaN?
    ensures CheckBounds(Number(a), Number(b)).Success?
    ensures Le(Normalized(a, b).lo, Normalized(a, b).hi)
    ensures Le(a, b) ==> Normalized(a, b) == Bounds(a, b)
    ensures Lt(b, a) <==> Normalized(a, b) == Bounds(b, a) && a != b
  {
  }

  /** For endpoints other than NaN, `checkBounds` returns the one ascending
      arrangement of its two inputs: any ordered pair holding the same two
      numbers is the result. */
  lemma CheckBoundsIsSortedPair(a: Num, b: Num, lo: Num, hi: Num)
    requires !a.NaN? && !b.NaN?
    requires multiset{lo, hi} == multiset{a, b} && Le(lo, hi)
    ensures CheckBounds(Number(a), Number(b)) == Success(Bounds(lo, hi))
  {
  }

  /** Infinite endpoints come back as they were given. */
  lemma CheckBoundsKeepsInfinities(a: Num, b: Num)
    requires !a.NaN? && !b.NaN?
    ensures a == NegInf || b == NegInf ==> Normalized(a, b).lo == NegInf
    ensures a == PosInf || b == PosInf ==> Normalized(a, b).hi == PosInf
  {
  }

  /** A NaN endpoint is not detected (`x === NaN` is always false) and,
      since no comparison with NaN holds, the pair is never swapped. */
  lemma CheckBoundsPassesNaN(a: Num, b: Num)
    requires a.NaN? || b.NaN?
    ensures CheckBounds(Number(a), Number(b)) == Success(Bounds(a, b))
  {
  }

  /** Normalising an already normalised pair changes nothing, which is why
      `force` may hand its ordered bounds to `check`. */
  lemma CheckBoundsIdempotent(a: Num, b: Num)
    ensures CheckBounds(Number(Normalized(a, b).lo), Number(Normalized(a, b).hi))
         == Success(Normalized(a, b))
  {
  }

  // ---------------------------------------------------------------- check

  /** `check` holds exactly when `v` lies between the two endpoints, in
      whichever order they were given. */
  lemma CheckIsBetween(v: Num, a: Num, b: Num)
    ensures Check(v, Number(a), Some(Number(b))) == Success(Between(v, a, b))
  {
  }

  /** The order in which the endpoints are supplied does not matter. */
  lemma CheckSymmetric(v: Num, a: Num, b: Num)
    ensures Check(v, Number(a), Some(Number(b))) == Check(v, Number(b), Some(Number(a)))
  {
  }

  /** Both endpoints belong to the interval. */
  lemma CheckInclusive(a: Num, b: Num)
    requires !a.NaN? && !b.NaN?
    ensures Check(a, Number(a), Some(Number(b))) == Success(true)
    ensures Check(b, Number(a), Some(Number(b))) == Success(true)
  {
  }

  /** With `max` omitted (or `undefined`) the interval is the single point
      `min`, and `check` is `v === min`. */
  lemma CheckSinglePoint(v: Num, a: Num, max: Option<JsVal>)
    requires max == None || max == Some(Undefined)
    ensures Check(v, Number(a), max) == Success(StrictEq(v, a))
  {
  }

  /** No comparison with NaN holds, so `check` is false when `v` or an
      endpoint is NaN. */
  lemma CheckFalseOnNaN(v: Num, a: Num, b: Num)
    requires v.NaN? || a.NaN? || b.NaN?
    ensures Check(v, Number(a), Some(Number(b))) == Success(false)
  {
  }

  /** `check` passes on the errors of `checkBounds` and throws no others. */
  lemma CheckRejects(v: Num, min: JsVal, max: Option<JsVal>)
    ensures Check(v, min, max).Failure? ==>
      Check(v, min, max).error == CheckBounds(min, OrDefault(max, min)).error
  {
  }

  // ---------------------------------------------------------------- force

  /** `force` fails on non-number bounds before it looks at anything else. */
  lemma ForceRejectsBounds(v: JsVal, min: JsVal, max: Option<JsVal>, default: Option<Num>)
    requires CheckBounds(min, OrDefault(max, min)).Failure?
    ensures Force(v, min, max, default) == Failure(CheckBounds(min, OrDefault(max, min)).error)
  {
  }

  /** With number bounds, `force` fails exactly when the default lies outside
      the interval, and then with `DefaultOutOfRange`, whatever `v` is. */
  lemma ForceValidatesDefault(v: JsVal, a: Num, b: Num, d: Num)
    ensures Force(v, Number(a), Some(Number(b)), Some(d)).Failure? <==> !Between(d, a, b)
    ensures Force(v, Number(a), Some(Number(b)), Some(d)).Failure? ==>
      Force(v, Number(a), Some(Number(b)), Some(d)).error == DefaultOutOfRange
  {
  }

  /** Whether `force` throws is decided before `v` is looked at. With number
      bounds and the default in the interval, it succeeds for every value. */
  lemma ForceSucceedsForEveryValue(a: Num, b: Num, d: Num)
    requires Between(d, a, b)
    ensures forall v :: Force(v, Number(a), Some(Number(b)), Some(d)).Success?
  {
  }

  /** With the default outside the interval, it fails with
      `DefaultOutOfRange` for every value. */
  lemma ForceFailsForEveryValue(a: Num, b: Num, d: Num)
    requires !Between(d, a, b)
    ensures forall v :: Force(v, Number(a), Some(Number(b)), Some(d)) == Failure(DefaultOutOfRange)
  {
  }

  /** So a `force` that accepts every value has its default in the interval:
      with the two lemmas above, success for all values and a default in the
      interval are the same thing. */
  lemma ForceOutcomeIgnoresValue(a: Num, b: Num, d: Num)
    ensures (forall v :: Force(v, Number(a), Some(Number(b)), Some(d)).Success?) ==> Between(d, a, b)
  {
    ForceValidatesDefault(Undefined, a, b, d);
  }

  /** With `max` omitted (or `undefined`) the interval is the single point
      `min`: `force` behaves as if `max` had been passed equal to `min`. */
  lemma ForceMaxOmitted(v: JsVal, a: Num, max: Option<JsVal>, default: Option<Num>)
    requires max == None || max == Some(Undefined)
    ensures Force(v, Number(a), max, default) == Force(v, Number(a), Some(Number(a)), default)
  {
  }

  /** The default defaults to `min` as passed, which always lies in the
      interval unless an endpoint is NaN. */
  lemma ForceOmittedDefault(v: JsVal, a: Num, b: Num)
    requires !a.NaN? && !b.NaN?
    ensures Force(v, Number(a), Some(Number(b)), None) == Force(v, Number(a), Some(Number(b)), Some(a))
    ensures Force(v, Number(a), Some(Number(b)), None).Success?
  {
  }

  /** A NaN default, or a NaN endpoint, always ends in `DefaultOutOfRange`:
      the NaN slips through `checkBounds` and is caught only by `check`. */
  lemma ForceNaNFails(v: JsVal, a: Num, b: Num, default: Option<Num>)
    requires a.NaN? || b.NaN? || default == Some(NaN)
    ensures Force(v, Number(a), Some(Number(b)), default) == Failure(DefaultOutOfRange)
  {
  }

  /** For a number other than NaN, `force` clamps it into the normalised
      interval: the result lies in the interval, and it is `v` when `v` is
      inside, the low end when `v` is below and the high end when above. */
  lemma ForceClamps(v: Num, a: Num, b: Num, d: Num)
    requires !v.NaN? && Between(d, a, b)
    ensures Force(Number(v), Number(a), Some(Number(b)), Some(d))
         == Success(Number(Clamp(v, Normalized(a, b).lo, Normalized(a, b).hi)))
  {
  }

  /** `Clamp` lands in the interval and moves only values outside it. */
  lemma ClampInInterval(v: Num, lo: Num, hi: Num)
    requires !v.NaN? && Le(lo, hi)
    ensures Le(lo, Clamp(v, lo, hi)) && Le(Clamp(v, lo, hi), hi)
    ensures Le(lo, v) && Le(v, hi) ==> Clamp(v, lo, hi) == v
    ensures Lt(v, lo) ==> Clamp(v, lo, hi) == lo
    ensures Lt(hi, v) ==> Clamp(v, lo, hi) == hi
  {
  }

  /** Whenever `force` succeeds on a number other than NaN, or on a falsy
      non-number, its result lies between the two endpoints. */
  lemma ForceInRange(v: JsVal, a: Num, b: Num, default: Option<Num>)
    requires Force(v, Number(a), Some(Number(b)), default).Success?
    requires (v.Number? && !v.n.NaN?) || (!v.Number? && !Truthy(v))
    ensures Force(v, Number(a), Some(Number(b)), default).value.Number?
    ensures Between(Force(v, Number(a), Some(Number(b)), default).value.n, a, b)
  {
  }

  /** Zero is a number like any other: it is clamped, never replaced by the
      default, and comes back unchanged when it lies in the interval. */
  lemma ForceKeepsZero(a: Num, b: Num, d: Num)
    requires Between(d, a, b) && Between(Fin(0.0), a, b)
    ensures Force(Number(Fin(0.0)), Number(a), Some(Number(b)), Some(d)) == Success(Number(Fin(0.0)))
  {
    CheckIsBetween(Fin(0.0), a, b);
    ForceFixesExactlyChecked(Fin(0.0), a, b, d);
  }

  /** A non-number `v` is `v || _default`: a falsy one (`undefined`, `null`,
      `false`, `''`) gives the default, a truthy one (a non-empty string,
      `true`, an object) comes back as it is, without an error. */
  lemma ForceNonNumber(v: JsVal, a: Num, b: Num, d: Num)
    requires !v.Number? && Between(d, a, b)
    ensures !Truthy(v) ==> Force(v, Number(a), Some(Number(b)), Some(d)) == Success(Number(d))
    ensures Truthy(v) ==> Force(v, Number(a), Some(Number(b)), Some(d)) == Success(v)
  {
    ForceValidatesDefault(v, a, b, d);
  }

  /** A NaN value takes the clamping path, and `Math.min` and `Math.max`
      carry the NaN through: the result is NaN, not the default. */
  lemma ForceNaNValue(a: Num, b: Num, d: Num)
    requires Between(d, a, b)
    ensures Force(Number(NaN), Number(a), Some(Number(b)), Some(d)) == Success(Number(NaN))
  {
  }

  /** The values `force` leaves unchanged are exactly those `check` accepts. */
  lemma ForceFixesExactlyChecked(v: Num, a: Num, b: Num, d: Num)
    requires !v.NaN? && Between(d, a, b)
    ensures Force(Number(v), Number(a), Some(Number(b)), Some(d)) == Success(Number(v))
        <==> Check(v, Number(a), Some(Number(b))) == Success(true)
  {
  }

  /** Every point of the interval is a result of `force` on some number
      other than NaN (with `ForceInRange`: the results are exactly the
      interval). */
  lemma ForceReachesInterval(c: Num, a: Num, b: Num, d: Num)
    requires Between(c, a, b) && Between(d, a, b)
    ensures exists v: Num :: !v.NaN? && Force(Number(v), Number(a), Some(Number(b)), Some(d)) == Success(Number(c))
  {
    CheckIsBetween(c, a, b);
    ForceFixesExactlyChecked(c, a, b, d);
    assert !c.NaN? && Force(Number(c), Number(a), Some(Number(b)), Some(d)) == Success(Number(c));
  }

  /** Forcing a forced value again with the same arguments changes nothing. */
  lemma ForceIdempotent(v: JsVal, min: JsVal, max: Option<JsVal>, default: Option<Num>)
    requires Force(v, min, max, default).Success?
    ensures Force(Force(v, min, max, default).value, min, max, default) == Force(v, min, max, default)
  {
  }
}
