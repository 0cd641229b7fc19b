# force-bounds in Dafny

A model of the force-bounds JavaScript library: three pure functions that
put a value into a closed numeric interval.

- `checkBounds(min, max)` rejects an endpoint whose `typeof` is not
  `'number'` and, for endpoints other than NaN, returns the pair in
  ascending order.
- `check(v, min, max = min)` tests inclusive containment.
- `force(v, min, max = min, _default = min)` validates the default against
  the interval. A non-number `v` becomes `v || _default`, and a number is
  clamped with `Math.max(Math.min(v, max), min)`.

Files:

- `js_values.dfy` (module `JsValues`) holds the JavaScript semantics the
  library relies on. A number is `NaN`, `-Infinity`, a finite `real` or
  `+Infinity`. A value is a number, `undefined`, `null`, a boolean, a string
  or an object. The module also defines `<` and `<=` (every comparison with
  NaN is false), `Math.min`, `Math.max` (both propagate NaN) and truthiness.
- `force_bounds.dfy` (module `ForceBounds`) holds the three functions. Each
  `throw` becomes a `Failure` carrying one of `MinNotNumber`,
  `MaxNotNumber` or `DefaultOutOfRange`. An optional argument is an
  `Option`. As in JavaScript, a default parameter applies when the argument
  is omitted or passed as `undefined`.
- `force_bounds_properties.dfy` (module `ForceBoundsProperties`) holds the
  lemmas. They are stated against `Between`, which is containment with the
  endpoints in either order, and `Clamp`, which is clamping by cases. Neither
  definition shares code with the library.

The model follows the code where the code, its tests and its description
disagree:

- The guards `min === NaN` and `max === NaN` never hold, so NaN endpoints
  pass `checkBounds`. `force` then fails with `DefaultOutOfRange`, because
  `check` is false whenever NaN is involved.
- The guard `v === NaN` never holds either. A NaN value therefore takes the
  clamping path and yields NaN, not the default.
- A truthy non-number value, such as a non-empty string or an object, is
  returned unchanged by `v || _default`. It is not rejected.
- The default `_default = min` is the `min` argument as passed, evaluated
  before the bounds are reordered.

## Model

| member | source | states |
|---|---|---|
| JsValues.MathMin | index.js:21 | `Math.min` is NaN exactly when an argument is NaN; otherwise it is one of the two arguments and no larger than either |
| JsValues.MathMax | index.js:22 | `Math.max` is NaN exactly when an argument is NaN; otherwise it is one of the two arguments and no smaller than either |
| JsValues.LtStrictTotalOrder | index.js:5 | the `<` used to order the bounds is irreflexive, asymmetric and transitive, and it is total on numbers other than NaN |
| JsValues.FalsyValues | index.js:19 | the values for which the logical-or fallback picks the default are exactly `0`, `NaN`, `undefined`, `null`, `false` and `''` |
| ForceBounds.OrDefault | index.js:9 | a default parameter replaces an omitted or `undefined` argument by the default and keeps any other argument |
| ForceBounds.CheckBounds | index.js:2-7 | fails exactly when an endpoint is not a number, with the `min` error taking precedence; on success it returns the two inputs, possibly swapped |
| ForceBounds.Check | index.js:9-13 | fails exactly when `checkBounds` fails; it can hold only for a value and a `min` other than NaN |
| ForceBounds.Force | index.js:15-24 | any failure is `DefaultOutOfRange` or a `checkBounds` failure; a number in gives a number out |
| ForceBoundsProperties.CheckBoundsRejects | index.js:3-4 | a non-number `min` fails with `MinNotNumber`, then a non-number `max` fails with `MaxNotNumber`, and two numbers succeed |
| ForceBoundsProperties.CheckBoundsSorts | index.js:5-6 | for endpoints other than NaN the result is ordered; it is unchanged when `min <= max` and swapped exactly when `max < min` |
| ForceBoundsProperties.CheckBoundsIsSortedPair | index.js:5-6 | for endpoints other than NaN the result is the only ascending arrangement of the two inputs |
| ForceBoundsProperties.CheckBoundsKeepsInfinities | index.js:5-6 | an infinite endpoint comes back unchanged at its own end of the interval |
| ForceBoundsProperties.CheckBoundsPassesNaN | index.js:3-5 | a NaN endpoint is accepted and the pair comes back in the order given |
| ForceBoundsProperties.CheckBoundsIdempotent | index.js:16-18 | normalising the normalised pair again, as `force` does through `check`, changes nothing |
| ForceBoundsProperties.CheckIsBetween | index.js:9-12 | `check` holds exactly when the value lies between the two endpoints, inclusive, in either order |
| ForceBoundsProperties.CheckSymmetric | index.js:10 | `check` gives the same answer whichever order the endpoints are supplied in |
| ForceBoundsProperties.CheckInclusive | index.js:12 | both endpoints lie in the interval |
| ForceBoundsProperties.CheckSinglePoint | index.js:9-12 | with `max` omitted or `undefined`, `check` is `v === min` |
| ForceBoundsProperties.CheckFalseOnNaN | index.js:12 | `check` is false when the value or an endpoint is NaN |
| ForceBoundsProperties.CheckRejects | index.js:10 | `check` fails only with the error of `checkBounds` |
| ForceBoundsProperties.ForceRejectsBounds | index.js:15-16 | `force` fails with the `checkBounds` error before it looks at the value or the default |
| ForceBoundsProperties.ForceValidatesDefault | index.js:18 | with number bounds, `force` fails exactly when the default lies outside the interval, with `DefaultOutOfRange`, whatever the value |
| ForceBoundsProperties.ForceSucceedsForEveryValue | index.js:18-19 | with number bounds and the default in the interval, `force` succeeds whatever the value |
| ForceBoundsProperties.ForceFailsForEveryValue | index.js:18 | with number bounds and the default outside the interval, `force` fails with `DefaultOutOfRange` whatever the value |
| ForceBoundsProperties.ForceOutcomeIgnoresValue | index.js:18-19 | if `force` succeeds for every value, the default lies in the interval; with the two rows above, success for all values and a default in range coincide |
| ForceBoundsProperties.ForceMaxOmitted | index.js:15-16 | with `max` omitted or `undefined`, `force` behaves exactly as if `max` were passed equal to `min` |
| ForceBoundsProperties.ForceOmittedDefault | index.js:15-18 | an omitted default is `min` as passed, and `force` then succeeds for bounds other than NaN |
| ForceBoundsProperties.ForceNaNFails | index.js:3-4 | a NaN endpoint or a NaN default always ends in `DefaultOutOfRange`, never in a bound error |
| ForceBoundsProperties.ForceClamps | index.js:20-23 | for a number other than NaN the result is the value clamped by cases into the normalised interval |
| ForceBoundsProperties.ClampInInterval | index.js:21-22 | the clamped value lies in the interval; it is the value when inside, the low end when below and the high end when above |
| ForceBoundsProperties.ForceInRange | index.js:19-23 | a successful `force` of a number other than NaN, or of a falsy non-number, lies between the endpoints |
| ForceBoundsProperties.ForceKeepsZero | index.js:19-23 | zero is clamped like any number and is never replaced by the default |
| ForceBoundsProperties.ForceNonNumber | index.js:19 | a falsy non-number gives the default, and a truthy non-number comes back unchanged without an error |
| ForceBoundsProperties.ForceNaNValue | index.js:19-22 | a NaN value yields NaN, not the default |
| ForceBoundsProperties.ForceFixesExactlyChecked | index.js:12-23 | `force` leaves a number other than NaN unchanged exactly when `check` accepts it |
| ForceBoundsProperties.ForceReachesInterval | index.js:20-23 | every point of the interval is the result of `force` on some number other than NaN, so with `ForceInRange` the results are exactly the interval |
| ForceBoundsProperties.ForceIdempotent | index.js:15-24 | forcing the result of a successful `force` again with the same arguments gives the same result |

## Left out

- Rounding and the sign of zero are not modelled. The library only
  compares numbers, so a finite number is a `real`, and `Math.min`/`Math.max`
  do not distinguish `-0` from `+0` here.
- JavaScript coerces non-number operands in `>=` and `<=` through
  ToPrimitive and ToNumber. This is not modelled, so the `v` of `check` and
  the `_default` of `force` are numbers or omitted.
- BigInt and Symbol values are not among the modelled values.
- The error message strings are not modelled; each throw is an error
  variant instead. The module exports are not modelled either.
- ForceBounds.Force: its own contract only classifies failures and result
  types. The clamping, fallback and default-validation behaviour is stated
  in the `ForceBoundsProperties` lemmas.
