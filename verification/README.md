# ungame core, modelled in Dafny

This project models the core of the `ungame` TypeScript toolkit:

- **`Events`** (`src/core/Events.ts`) is an observer object. It keeps a table from event type to an ordered list of callbacks. It has these operations:
  - `addEventListener` ignores an empty type and a value that is not a function;
  - `removeEventListener` splices every occurrence of a callback out of its list, scanning from the back;
  - `dispatchEvent` builds one event carrying the type, the dispatcher and the payload, and calls every callable entry in order;
  - `on`, `off` and `trigger` split a space-separated list of types and call the single-type operation for each.
- **`Vector2` and `Vector3`** (`src/math/Vector2.ts`, `src/math/Vector3.ts`) are mutable vectors. Every change of coordinates made through a method raises a dirty flag. The length and the unit coordinates are cached and recomputed lazily the next time they are read. The coordinates are public fields, though: assigning one directly leaves a clean cache clean, and the getters then return the stale values. A zero length gives zero unit coordinates. The mutating operations update the receiver and return it.
- **Scalar helpers** (`src/math/utils.ts`) are `norm`, `lerp`, `map`, `clamp`, `distance` and `snap`.

## Layout

- `realfacts.dfy`, module `RealFacts`, holds facts about real arithmetic. It covers square roots, products that vanish, and vectors divided by their own length.
- `scalars.dfy`, module `Scalars`, holds the scalar helpers. `snap`'s `| 0` is modelled as ECMAScript ToInt32: truncate toward zero, then wrap into 32 bits.
- `events.dfy`, module `EventDispatch`, holds the class `Events<Data>`. Its private `listeners` field is a `map<string, seq<Handler>>`, and its ghost predicate `Valid` is the class invariant that every stored entry is callable. The value functions `Added`, `Removed`, `Notify`, `AddedAll` and `RemovedAll` specify what each method leaves. Dispatch returns the sequence of invocations it makes.
- `vector2.dfy`, module `Vectors2`, holds the class `Vector2`. It has the coordinate fields and the cache fields, and its ghost predicate `Valid` says the cache is consistent: a clean cache holds the length and unit coordinates of the current coordinates. Every method keeps a consistent cache consistent, and every mutating method leaves it dirty and therefore consistent; only a direct assignment to a coordinate breaks it. The getters are modelled for both cases: with a consistent cache they return the true values, and with a clean one they return what is cached. Value functions on `Pair` specify every operation.
- `vector3.dfy`, module `Vectors3`, holds the class `Vector3` on `Triple`. An `Operand` with an optional `z` carries the per-operation defaults for a missing `z`.

Numbers are mathematical reals. `Math.sqrt` is a foreign call. Every member that needs it takes it as a parameter `sqrt`, required to return the non-negative square root of every non-negative real (`IsSqrt`). Destructured operands (`{ x, y }`) are read when the call is made, so they are passed as values. `v.Coords()` passes a vector, the receiver included.

## Model

| member | source | states |
|---|---|---|
| Scalars.Norm | src/math/utils.ts:1-3 | the result is 0 at `min`, 1 at `max`, and in general `r * (max - min) == value - min` |
| Scalars.Lerp | src/math/utils.ts:4-6 | the result is `min` at 0 and `max` at 1, and `r - min == t * (max - min)` |
| Scalars.Map | src/math/utils.ts:7-9 | the source bounds map onto the destination bounds |
| Scalars.LerpNormRoundTrip | src/math/utils.ts:1-6 | `lerp(norm(v, min, max), min, max) == v` |
| Scalars.NormLerpRoundTrip | src/math/utils.ts:1-6 | `norm(lerp(t, min, max), min, max) == t` |
| Scalars.MapDefaultIsNorm | src/math/utils.ts:7-9 | with the default destination [0, 1], `map` equals `norm` |
| Scalars.Clamp | src/math/utils.ts:10-12 | the result lies between the smaller and the larger bound; it is the value when that lies inside, else the nearer bound |
| Scalars.ClampSymmetric | src/math/utils.ts:10-12 | the order of the bounds does not matter |
| Scalars.ClampIdempotent | src/math/utils.ts:10-12 | clamping twice is clamping once |
| Scalars.ClampExamples | src/math/utils.ts:10-12 | reversed bounds work: clamp(5, 10, 0) is 5; values below and above are raised and lowered |
| Scalars.Distance | src/math/utils.ts:13-17 | the result is the non-negative root of the squared distance, and it is 0 exactly when the points coincide |
| Scalars.DistanceSymmetric | src/math/utils.ts:13-17 | distance does not depend on the order of the points |
| Scalars.Trunc | src/math/utils.ts:18 | truncation toward zero: the integer between 0 and the quotient, less than 1 away |
| Scalars.ToInt32 | src/math/utils.ts:18 | `q \| 0` lies in the signed 32-bit range, agrees with truncation modulo 2^32, and equals it within that range |
| Scalars.Snap | src/math/utils.ts:18 | a zero multiplier snaps everything to 0 |
| Scalars.SnapTruncates | src/math/utils.ts:18 | for an in-range quotient, `snap` is the truncated quotient times the multiplier |
| Scalars.SnapBounds | src/math/utils.ts:18 | the snapped value lies between 0 and the value, less than one multiplier away from it |
| Scalars.SnapExamples | src/math/utils.ts:18 | snap(7, 5) is 5, snap(-7, 5) is -5 and snap(2.5) is 2 |
| Scalars.SnapWrapsBeyond32Bits | src/math/utils.ts:18 | quotients beyond 32 bits wrap: snap(2^32 + 3) is 3 and snap(2^31) is -2^31 |
| EventDispatch.Registered | src/core/Events.ts:17 | an unknown type has no callbacks |
| EventDispatch.Added | src/core/Events.ts:9-15 | an empty type or a non-callable value leaves the table unchanged; otherwise the callback is appended to its type's list, which is created if missing |
| EventDispatch.Removed | src/core/Events.ts:16-24 | the set of types is unchanged, including an unknown type that stays absent; the named list loses every occurrence of the callback and the other lists are untouched |
| EventDispatch.Without | src/core/Events.ts:18-23 | the callback no longer occurs and the list does not grow |
| EventDispatch.WithoutKeepsOthers | src/core/Events.ts:18-23 | every other callback keeps as many registrations as before |
| EventDispatch.WithoutIdempotent | src/core/Events.ts:16-24 | removing twice is removing once |
| EventDispatch.WithoutAbsent | src/core/Events.ts:16-24 | removing a callback that is not registered changes nothing |
| EventDispatch.SpliceOut | src/core/Events.ts:17-23 | the backward splice loop leaves exactly `Without(original, h)` |
| EventDispatch.TableStaysCallable | src/core/Events.ts:9-24 | registration and removal keep every entry of the table callable |
| EventDispatch.Notify | src/core/Events.ts:30-35 | one invocation per callable entry, each with the same event; when all entries are callable, the invocations follow the registration order one for one |
| EventDispatch.NotifyCountsRegistrations | src/core/Events.ts:30-35 | a callback registered n times is invoked n times by one dispatch |
| EventDispatch.Split | src/core/Events.ts:38 | at least one piece, and no piece contains the separator |
| EventDispatch.SplitCount | src/core/Events.ts:38 | there is one more piece than there are separators |
| EventDispatch.JoinSplit | src/core/Events.ts:38 | joining the pieces with the separator gives the string back |
| EventDispatch.SplitJoin | src/core/Events.ts:38 | separator-free pieces come back unchanged from splitting their join |
| EventDispatch.AddedAllRegisters | src/core/Events.ts:37-42 | after `on`, a callable handler is under every non-empty named type; unnamed types are unchanged, and no other type appears |
| EventDispatch.RemovedAllClears | src/core/Events.ts:43-48 | after `off`, the handler is under none of the named types; the set of types is unchanged and unnamed types are untouched |
| EventDispatch.AllStayCallable | src/core/Events.ts:37-48 | `on` and `off` keep every entry of the table callable |
| EventDispatch.OnThenOff | src/core/Events.ts:37-48 | `on(t, h)` then `off(t, h)` leaves `h` under none of the types in `t` |
| EventDispatch.Events.constructor | src/core/Events.ts:8 | the table starts empty, so the invariant that every entry is callable holds |
| EventDispatch.Events.AddEventListener | src/core/Events.ts:9-15 | the new table is `Added(old table, type, h)`, and every entry stays callable |
| EventDispatch.Events.RemoveEventListener | src/core/Events.ts:16-24 | the new table is `Removed(old table, type, h)`, and every entry stays callable |
| EventDispatch.Events.DispatchEvent | src/core/Events.ts:25-36 | the invocations are `Notify` of the registered list; as every entry is callable, there is exactly one invocation per registration, in registration order, each with one event carrying the type, this dispatcher and the payload |
| EventDispatch.Events.On | src/core/Events.ts:37-42 | the new table is `AddedAll` over the space-separated pieces, in order, and every entry stays callable |
| EventDispatch.Events.Off | src/core/Events.ts:43-48 | the new table is `RemovedAll` over the space-separated pieces, in order, and every entry stays callable |
| EventDispatch.Events.Trigger | src/core/Events.ts:49-54 | the invocations are the dispatches of each piece, concatenated in order |
| EventDispatch.RegisterThenTrigger | src/core/Events.ts:9-15 | a callback registered under "a" and triggered with "a" is invoked exactly once, with the payload and the dispatcher as target |
| EventDispatch.RegisterTwoTypes | src/core/Events.ts:37-42 | `on("a b", h)` on an empty table registers `h` under "a" and under "b" |
| EventDispatch.DispatchTwoTypes | src/core/Events.ts:49-54 | with `h` alone under "a" and "b", dispatching both types calls `h` once per type, in order |
| EventDispatch.OnThenTriggerTwoTypes | src/core/Events.ts:37-54 | `on("a b", c)` then `trigger("a b", x)` invokes `c` twice, first for "a" then for "b" |
| Vectors2.LengthOf | src/math/Vector2.ts:95-96 | the length is the non-negative root of `x² + y²`, and it is 0 exactly for the zero vector |
| Vectors2.AddSubtractRoundTrip | src/math/Vector2.ts:58-63 | subtract undoes add, and add undoes subtract |
| Vectors2.MultiplyDivideRoundTrip | src/math/Vector2.ts:64-69 | with non-zero factors, divide undoes multiply and multiply undoes divide |
| Vectors2.NegateInvolution | src/math/Vector2.ts:82-84 | negating twice gives the vector back |
| Vectors2.LerpEndpoints | src/math/Vector2.ts:76-78 | lerp at 0 stays put and at 1 reaches the target |
| Vectors2.DotProperties | src/math/Vector2.ts:70-72 | the dot product is symmetric; with itself it is the squared length, which is non-negative |
| Vectors2.CrossAntisymmetric | src/math/Vector2.ts:73-75 | the cross product changes sign with the order and vanishes for a vector with itself |
| Vectors2.DistanceProperties | src/math/Vector2.ts:85-89 | the squared distance is the same in both directions, and the difference is the zero vector exactly when the points are equal |
| Vectors2.UnitHasLengthOne | src/math/Vector2.ts:93-102 | the cached unit vector of a non-zero vector has squared length 1, and scaled by the length it gives the vector back |
| Vectors2.UnitOfZero | src/math/Vector2.ts:97-98 | the zero vector's unit coordinates are 0, not NaN |
| Vectors2.PerpendicularIsNormal | src/math/Vector2.ts:90-92 | `(-uy, ux)` built from the true unit coordinates is perpendicular to the vector, with length 1 when the vector is non-zero |
| Vectors2.ProjectionOrthogonal | src/math/Vector2.ts:112-115 | what the projection leaves over is perpendicular to `src`, and the projection is parallel to `src` |
| Vectors2.ProjectionIdempotent | src/math/Vector2.ts:112-115 | projecting twice onto the same vector is projecting once |
| Vectors2.UnitOfAxis | src/math/Vector2.ts:120-123 | the axis values (0, ±1) and (±1, 0) are their own unit vectors |
| Vectors2.Vector2.constructor | src/math/Vector2.ts:14-18 | the coordinates are the arguments, defaulting to 0; the cache is dirty |
| Vectors2.Vector2.Recalc | src/math/Vector2.ts:93-102 | afterwards the cache is clean; a dirty cache now holds the current length and unit coordinates, a clean one is left as it was (stale or not), and a consistent cache holds the current length |
| Vectors2.Vector2.Length | src/math/Vector2.ts:19-24 | returns the cached length and leaves the cache clean; a clean cache is not touched, so the answer can be stale; with a consistent cache it is the length of the current coordinates |
| Vectors2.Vector2.Magnitude | src/math/Vector2.ts:52-54 | the same as `length`, stale cache included |
| Vectors2.Vector2.Ux | src/math/Vector2.ts:25-30 | returns the cached unit x coordinate, stale after a direct assignment; with a consistent cache, the unit x coordinate of the current coordinates |
| Vectors2.Vector2.Uy | src/math/Vector2.ts:31-36 | as written: returns the cached unit **x** coordinate |
| Vectors2.Vector2.UnitY | src/math/Vector2.ts:31-36 | corrected: returns the cached unit y coordinate, the true one with a consistent cache |
| Vectors2.Vector2.Clone | src/math/Vector2.ts:37-39 | a fresh vector with equal coordinates and a dirty cache of its own |
| Vectors2.Vector2.Set | src/math/Vector2.ts:43-48 | the coordinates become the arguments, the cache turns dirty, and the receiver is returned |
| Vectors2.Vector2.Copy | src/math/Vector2.ts:40-42 | the coordinates become the operand's |
| Vectors2.Vector2.Equals | src/math/Vector2.ts:49-51 | true exactly when both coordinates are equal |
| Vectors2.Vector2.Add | src/math/Vector2.ts:58-60 | the new coordinates are the old ones plus the operand |
| Vectors2.Vector2.Subtract | src/math/Vector2.ts:61-63 | the new coordinates are the old ones minus the operand |
| Vectors2.Vector2.Multiply | src/math/Vector2.ts:64-66 | the new coordinates are the old ones times the operand, coordinate-wise |
| Vectors2.Vector2.Divide | src/math/Vector2.ts:67-69 | the new coordinates are the old ones divided by the operand, coordinate-wise |
| Vectors2.Vector2.Lerp | src/math/Vector2.ts:76-78 | the receiver moves the fraction `t` of the way to the operand; `t` defaults to 0 |
| Vectors2.Vector2.Scale | src/math/Vector2.ts:79-81 | each coordinate is scaled; the y factor defaults to the x factor |
| Vectors2.Vector2.Negate | src/math/Vector2.ts:82-84 | both coordinates change sign |
| Vectors2.Vector2.Dot | src/math/Vector2.ts:70-72 | the dot product with the operand, the same in either order (`DotProperties`); with itself, the non-negative squared length |
| Vectors2.Vector2.Cross | src/math/Vector2.ts:73-75 | the cross product with the operand, which changes sign with the order (`CrossAntisymmetric`) and is 0 with itself |
| Vectors2.Vector2.Distance | src/math/Vector2.ts:85-89 | the root of the squared distance to the operand, 0 exactly when they coincide |
| Vectors2.Vector2.Normalize | src/math/Vector2.ts:55-57 | as written: both coordinates become the cached unit x coordinate, the old true one with a consistent cache; the cache turns dirty |
| Vectors2.Vector2.NormalizeCorrected | src/math/Vector2.ts:55-57 | corrected: the coordinates become the cached unit vector, the old true one with a consistent cache |
| Vectors2.Vector2.Normal | src/math/Vector2.ts:90-92 | as written: a fresh vector with a dirty cache, `(-ux, ux)` from the cached unit coordinates; the receiver's coordinates are unchanged |
| Vectors2.Vector2.NormalCorrected | src/math/Vector2.ts:90-92 | corrected: a fresh vector with a dirty cache, `(-uy, ux)` from the cached unit coordinates, the perpendicular unit vector with a consistent cache |
| Vectors2.Vector2.Project | src/math/Vector2.ts:112-115 | the receiver becomes its projection onto `src`, measured before the call, even when `src` is the receiver |
| Vectors2.UyOfUp | src/math/Vector2.ts:31-36 | on (0, 1), `uy` answers 0 where the unit y coordinate is 1 |
| Vectors2.NormalizeUp | src/math/Vector2.ts:55-57 | `normalize` turns (0, 1) into (0, 0); the corrected version leaves it at (0, 1) |
| Vectors2.NormalOfRight | src/math/Vector2.ts:90-92 | `normal` of (1, 0) is (-1, 1), which is not perpendicular to it and not of length 1; the corrected normal is (0, 1) |
| Vectors2.StaleLength | src/math/Vector2.ts:7-24 | after `length` of (3, 4) and a direct `v.x = 0`, `length` still answers 5 while the true length is 4 |
| Vectors2.LengthsOfThreeFour | src/math/Vector2.ts:19-24 | the lengths of (3, 4) and (0, 4) are 5 and 4 |
| Vectors2.NormalsOfRight | src/math/Vector2.ts:90-92 | the value-level normals of (1, 0): (-1, 1) as written and (0, 1) corrected |
| Vectors3.Resolve | src/math/Vector3.ts:50-101 | an operand's missing `z` takes the operation's default, and a present `z` is used as given |
| Vectors3.LengthOf | src/math/Vector3.ts:104-105 | the length is the non-negative root of `x² + y² + z²`, and it is 0 exactly for the zero vector |
| Vectors3.AddSubtractRoundTrip | src/math/Vector3.ts:69-74 | subtract undoes add, and add undoes subtract |
| Vectors3.MultiplyDivideRoundTrip | src/math/Vector3.ts:75-80 | with non-zero factors, divide undoes multiply and multiply undoes divide |
| Vectors3.PlanarOperandKeepsZ | src/math/Vector3.ts:69-101 | an operand without `z` leaves `z` unchanged under add, subtract, multiply, divide and lerp, adds nothing to the dot product, and makes distance planar |
| Vectors3.NegateInvolution | src/math/Vector3.ts:93-95 | negating twice gives the vector back |
| Vectors3.LerpEndpoints | src/math/Vector3.ts:87-89 | lerp at 0 stays put and at 1 reaches the target |
| Vectors3.DotProperties | src/math/Vector3.ts:81-83 | the dot product is symmetric; with itself it is the squared length, which is non-negative |
| Vectors3.CrossProperties | src/math/Vector3.ts:84-86 | the cross product is antisymmetric, vanishes for a vector with itself, and is perpendicular to both factors |
| Vectors3.DistanceProperties | src/math/Vector3.ts:96-101 | the squared distance is the same in both directions, and the difference is the zero vector exactly when the points are equal |
| Vectors3.UnitHasLengthOne | src/math/Vector3.ts:102-112 | the unit vector of a non-zero vector has length 1, and scaled by the length it gives the vector back |
| Vectors3.UnitOfZero | src/math/Vector3.ts:106-108 | the zero vector's unit coordinates are 0, not NaN |
| Vectors3.UnitIdempotent | src/math/Vector3.ts:66-68 | normalising twice is normalising once |
| Vectors3.ProjectionOrthogonal | src/math/Vector3.ts:113-116 | what the projection leaves over is perpendicular to `src`, and the projection is parallel to `src` |
| Vectors3.ProjectionIdempotent | src/math/Vector3.ts:113-116 | projecting twice onto the same vector is projecting once |
| Vectors3.Vector3.constructor | src/math/Vector3.ts:17-22 | the coordinates are the arguments, defaulting to 0; the cache is dirty |
| Vectors3.Vector3.Recalc | src/math/Vector3.ts:102-112 | afterwards the cache is clean; a dirty cache now holds the current length and unit coordinates, a clean one is left as it was (stale or not), and a consistent cache holds the current length |
| Vectors3.Vector3.Length | src/math/Vector3.ts:23-28 | returns the cached length and leaves the cache clean; a clean cache is not touched, so the answer can be stale; with a consistent cache it is the length of the current coordinates |
| Vectors3.Vector3.Magnitude | src/math/Vector3.ts:63-65 | the same as `length`, stale cache included |
| Vectors3.Vector3.Ux | src/math/Vector3.ts:29-34 | returns the cached unit x coordinate; with a consistent cache, the true one |
| Vectors3.Vector3.Uy | src/math/Vector3.ts:35-40 | returns the cached unit y coordinate; with a consistent cache, the true one |
| Vectors3.Vector3.Uz | src/math/Vector3.ts:41-46 | returns the cached unit z coordinate; with a consistent cache, the true one |
| Vectors3.Vector3.Clone | src/math/Vector3.ts:47-49 | as written: a fresh vector `(x, y, y)` |
| Vectors3.Vector3.CloneCorrected | src/math/Vector3.ts:47-49 | corrected: a fresh vector with equal coordinates and a dirty cache |
| Vectors3.Vector3.Set | src/math/Vector3.ts:53-59 | the coordinates become the arguments, the cache turns dirty, and the receiver is returned |
| Vectors3.Vector3.Copy | src/math/Vector3.ts:50-52 | the coordinates become the operand's, with a missing `z` read as 0 |
| Vectors3.Vector3.Equals | src/math/Vector3.ts:60-62 | true exactly when all coordinates are equal, with a missing `z` read as 0 |
| Vectors3.Vector3.Add | src/math/Vector3.ts:69-71 | the old coordinates plus the operand, with a missing `z` read as 0 |
| Vectors3.Vector3.Subtract | src/math/Vector3.ts:72-74 | the old coordinates minus the operand, with a missing `z` read as 0 |
| Vectors3.Vector3.Multiply | src/math/Vector3.ts:75-77 | the old coordinates times the operand, with a missing `z` read as 1 |
| Vectors3.Vector3.Divide | src/math/Vector3.ts:78-80 | the old coordinates divided by the operand, with a missing `z` read as 1 |
| Vectors3.Vector3.Dot | src/math/Vector3.ts:81-83 | the dot product with the operand, a missing `z` read as 0, the same in either order (`DotProperties`); with itself, the non-negative squared length |
| Vectors3.Vector3.Cross | src/math/Vector3.ts:84-86 | the receiver becomes the cross product of its old self with the operand, a missing `z` taking the old `z` |
| Vectors3.Vector3.Lerp | src/math/Vector3.ts:87-89 | the receiver moves the fraction `t` of the way to the operand; a missing `z` takes the old `z` |
| Vectors3.Vector3.Scale | src/math/Vector3.ts:90-92 | each coordinate is scaled; the y and z factors default to the x factor |
| Vectors3.Vector3.Negate | src/math/Vector3.ts:93-95 | all coordinates change sign |
| Vectors3.Vector3.Distance | src/math/Vector3.ts:96-101 | the root of the squared distance to the operand, a missing `z` taking this `z`; 0 exactly when they coincide |
| Vectors3.Vector3.Normalize | src/math/Vector3.ts:66-68 | the coordinates become the cached unit vector, the old true one with a consistent cache; the cache turns dirty |
| Vectors3.Vector3.Project | src/math/Vector3.ts:113-116 | the receiver becomes its projection onto `src`, measured before the call, even when `src` is the receiver |
| Vectors3.CloneOfOneTwoThree | src/math/Vector3.ts:47-49 | `clone` of (1, 2, 3) is (1, 2, 2); the corrected clone is (1, 2, 3) |
| Vectors3.NormalizeThenMagnitude | src/math/Vector3.spec.ts:4-6 | `new Vector3(10, 10, 10).normalize().magnitude()` is exactly 1 |

## Left out

- `Math.sqrt` is not modelled. It is a parameter `sqrt` that must return the exact non-negative root. Floating-point rounding, NaN and Infinity are not modelled anywhere: numbers are mathematical reals.
- Scalars.Norm, Scalars.Map: require `min != max`, because the source then divides by zero and yields NaN or Infinity.
- Vectors2.Vector2.Divide, Vectors3.Vector3.Divide: require non-zero divisors for the same reason.
- Vectors2.Vector2.Project, Vectors3.Vector3.Project: require `src` to be non-zero for the same reason.
- Scalars.SnapTruncates, Scalars.SnapBounds: state `snap`'s bounds only for quotients within the 32-bit range. Outside it, `| 0` wraps, which `Scalars.ToInt32` models and `Scalars.SnapWrapsBeyond32Bits` shows.
- `angle` and `rotate` of `Vector2` are left out. They need `atan2`, `cos` and `sin`, which reals cannot express without a trigonometry model.
- `src/math/random.ts` is not part of this model. It depends on `Math.random`.
- The frozen static constants (`ZERO`, `ONE`, `UP`, …) are not modelled as objects; Vectors2.UnitOfAxis states only that the axis values are their own unit vectors. The constants are frozen while their cache is still dirty, so the first cached getter on one (`Vector2.RIGHT.length`, `.ux`, `.normalize()`, `.normal()`, `Vector3.UP.magnitude()`) runs `recalc`, which assigns to the frozen object: a `TypeError` in strict-mode code, a silently ignored write otherwise. Neither outcome is modelled.
- EventDispatch.Events.DispatchEvent: the DOM `Event` object, `Object.defineProperty` and `Function.prototype.apply` are not modelled. The event is a value holding the type, the dispatcher and the payload, and running a callback is recorded as an invocation, not performed. So a listener that adds or removes listeners while a dispatch is running is not modelled.
- A callback is identified by a number. Function identity (`===`) is therefore equality of numbers, and values that are not functions collapse into `NotCallable`.
- The listener table is a map from strings. Keys inherited from `Object.prototype`, such as `"constructor"`, are not modelled.
- EventDispatch.Split: models `String.prototype.split` only for the one-character separator `' '` that the source uses.
- `for … in` over the split pieces is modelled as iteration in index order, which is how it visits the pieces of an array.

## Findings

| source | as written | input that shows it | evidently intended | confidence | as-written member | corrected member |
|---|---|---|---|---|---|---|
| src/math/Vector2.ts:35 | the `uy` getter returns `this._ux` | the vector (0, 1): `uy` is 0 | `uy` returns `this._uy`, which is 1 here | high (not executed) | Vectors2.Vector2.Uy, shown by Vectors2.UyOfUp | Vectors2.Vector2.UnitY |
| src/math/Vector2.ts:56 | `normalize` sets `(ux, uy)`, so both coordinates become the unit x coordinate | (0, 1) becomes (0, 0) | the vector becomes its unit vector, (0, 1) here, with length 1 (Vectors2.UnitHasLengthOne) | high (not executed) | Vectors2.Vector2.Normalize, shown by Vectors2.NormalizeUp | Vectors2.Vector2.NormalizeCorrected |
| src/math/Vector2.ts:91 | `normal` builds `(-uy, ux)`, which is `(-ux, ux)` | (1, 0) gives (-1, 1): its dot product with (1, 0) is -1 and its squared length is 2 | the perpendicular unit vector, (0, 1) here (Vectors2.PerpendicularIsNormal) | high (not executed) | Vectors2.Vector2.Normal, shown by Vectors2.NormalOfRight | Vectors2.Vector2.NormalCorrected |
| src/math/Vector3.ts:48 | `clone` passes `this.y` as the new `z` | (1, 2, 3) clones to (1, 2, 2), so `v.clone().equals(v)` is false | a copy with equal coordinates | high (not executed) | Vectors3.Vector3.Clone, shown by Vectors3.CloneOfOneTwoThree | Vectors3.Vector3.CloneCorrected |
