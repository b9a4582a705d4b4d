# Conjugation-surface viewer: scene state and navigation

A model of the state logic of a WebGL viewer for a "surface of conjugation": a
surface of revolution whose radius oscillates with height according to a
cam-profile law set by two radii `R1`, `R2` and a profile angle `fi`. The
surface mesh itself is built by an evaluator outside `main.js`. This model
covers what `main.js` decides on its own:

- the effective parameters: a copy of the slider record in which `fi` is negated when `R1 < R2`;
- the profile constants `a = R2 - R1`, the floored `tan(fi)`, `c = -2*PI*a/tanFi` and `b = 3c/4`, whose magnitude `|b|` bounds the pivot's height coordinate;
- the default pivot, set at regeneration only while the pivot is still the sentinel `(0, 0)`;
- the a/d/s/w keyboard stepper, which wraps `u` on `[0, 2*PI]` and clamps `v` to `[0, |b|]`;
- the wheel zoom, clamped to `[3, 50]`;
- the slider and angle-selector inputs;
- the choice between the on-surface pivot and the custom pivot.

Files:

- `profile.dfy`, module `Profile`: the parameter record, the effective parameters, the tangent floor, the profile constants and the height bound `VMax`. It holds the lemmas about them: `VMax` is zero exactly for equal radii, `VMax` never exceeds `1.5e6*PI*|R2 - R1|` whatever the angle, what the sign flip does to the period, and where the floor undoes it.
- `navigation.dfy`, module `Navigation`: key folding, one key press as a pure transition `Step` on `(u, v)`, repeated presses, the default-pivot rule `PlaceDefault` and the zoom `Zoom`. It holds the range, inverse and reachability lemmas.
- `viewer.dfy`, module `Viewer`: the class `Scene`. It holds the mutable globals of `main.js` as fields, and the event handlers as methods that update those fields in place. Each handler with a pure counterpart in `Navigation` or `Profile` is proved equal to it, and every handler keeps the invariant `Valid()`: `0 <= u <= 2*PI`, `0 <= v`, `3 <= viewDistance <= 50`.

Arithmetic is over exact reals. `PI` is the literal value of `Math.PI`.
`Math.tan` and the surface evaluator `calcSurfacePoint` are function-valued
constants given to the `Scene` constructor; nothing is assumed about them,
except that one lemma takes oddness of `tan` as a hypothesis.

Behaviour worth noting:

- The tangent floor turns every `|tan(fi)| < 1e-6` into `+1e-6`, whatever its sign (main.js:243, 304). `Profile.FloorDefeatsFlip` shows one consequence: with `R1 < R2` and a near-zero tangent, the period comes out negative despite the flip.
- `a = R2 - R1` and `b = 3c/4` (main.js:241, 245).
- `|b|` is zero exactly when `R1 == R2` (`Profile.VMaxZeroIffEqualRadii`).
- The default pivot is guarded by the sentinel `(0, 0)` (main.js:247). `Navigation.DefaultPivotReachesSentinel` shows that 25 presses of `a` and 25 of `s` lead from the default pivot back to `(0, 0)`, over exact reals. The next regeneration then moves the pivot back to the default.

## Model

| member | source | states |
|---|---|---|
| `Profile.EffectiveParams` | main.js:32-41 | the result differs from the record only in `fi`, which is negated exactly when `R1 < R2`; its magnitude is kept |
| `Profile.EffectiveParamsInvolution` | main.js:32-41 | deriving the effective parameters twice gives back the original record, because the flip does not touch the radii it depends on |
| `Profile.TanFloor` | main.js:242-243 | the floored tangent is never zero and has magnitude at least `1e-6`; below the floor it is `+1e-6` whatever the sign of the input, and otherwise it is the input itself |
| `Profile.TanFloorIdempotent` | main.js:242-243 | flooring twice is the same as flooring once |
| `Profile.ProfileConstants` | main.js:240-245 | `a = R2 - R1`, `tanFi` is the floored tangent, `c * tanFi = -2*PI*a` and `4b = 3c` |
| `Profile.VMax` | main.js:302-309 | the height bound is non-negative and satisfies `vMax * |tanFi| = 1.5*PI*|R2 - R1|` |
| `Profile.VMaxZeroIffEqualRadii` | main.js:241-245 | the height bound is zero if and only if `R1 == R2` |
| `Profile.VMaxBounded` | main.js:242-245 | thanks to the floor, the height bound never exceeds `1.5e6*PI*|R2 - R1|`, for every angle |
| `Profile.EffectivePeriodNonNegative` | main.js:240-244 | for an odd `tan` and `tan(fi) >= 1e-6`, the period of the effective parameters is `>= 0` whichever radius is larger |
| `Profile.FloorDefeatsFlip` | main.js:243-244 | with `R1 < R2` and a tangent below the floor, the period of the effective parameters is negative |
| `Navigation.Lower` | main.js:314 | the folded key name has the same length and no capital letter A-Z; each capital becomes its small letter (code point plus 32) and every other character is kept |
| `Navigation.KeyOf` | main.js:314 | a key name selects a, d, s or w exactly when it is that letter in lower or upper case; every other name selects no key |
| `Navigation.Step` | main.js:311-328 | a/d leave `v` unchanged; a lowers `u` by one step `2*PI/50` and adds a full turn exactly when `u` was below one step; d raises `u` by one step and subtracts a full turn exactly when that passes `2*PI`; `u` stays in `[0, 2*PI]`; s/w leave `u` unchanged; s lowers `v` by `vMax/50`, or gives `0` when `v` was below one step; w raises `v` by `vMax/50`, or gives `vMax` when that would pass `vMax`; a `v` in `[0, vMax]` stays there; any other key changes nothing |
| `Navigation.WrapBelowZero` | main.js:315-318 | key a at `u = 0` yields `2*PI - 2*PI/50` |
| `Navigation.DUndoesA` | main.js:315-322 | d after a restores every `u` in `[0, 2*PI]`, except `u = 0`, which comes back as `2*PI` |
| `Navigation.AUndoesD` | main.js:315-322 | a after d restores every `u` in `[0, 2*PI]`, except `u = 2*PI`, which comes back as `0` |
| `Navigation.SUndoesW` | main.js:323-328 | s after w restores `v` when `v` is at least one step below `vMax` |
| `Navigation.WUndoesS` | main.js:323-328 | w after s restores `v` when `v` is at least one step above `0` and at most `vMax` |
| `Navigation.PressesA` | main.js:315-318 | from any `u` at least `n` steps above 0, `n` presses of a lower `u` by exactly `n` steps and leave `v` unchanged |
| `Navigation.PressesS` | main.js:323-325 | for `vMax >= 0` and any `v` at least `n` steps of `vMax/50` above 0, `n` presses of s lower `v` by exactly `n` steps and leave `u` unchanged |
| `Navigation.PressesAFromPi` | main.js:315-318 | from `u = PI`, each of the first 25 presses of a lowers `u` by exactly one step, with no wrap |
| `Navigation.PressesSFromHalf` | main.js:323-325 | from `v = vMax/2`, each of the first 25 presses of s lowers `v` by exactly one step, with no clamp |
| `Navigation.DefaultPivotReachesSentinel` | main.js:247-250 | 25 presses of a, then 25 of s, take the default pivot `(PI, vMax/2)` to the sentinel `(0, 0)` |
| `Navigation.PlaceDefault` | main.js:247-250 | the pivot changes if and only if it was `(0, 0)`, and then it becomes `(PI, vMax/2)`; afterwards it is never `(0, 0)` |
| `Navigation.Zoom` | main.js:334-336 | the new distance lies in `[3, 50]`; it is the scaled distance when that is in range, exactly `3` when the scaled distance is below 3 and exactly `50` when it is above 50; zooming in never increases a distance `>= 3`; zooming out, a zero delta included, never decreases a distance `<= 50` |
| `Viewer.WithSlider` | main.js:373-386 | a slider changes exactly its own field of the parameter record; no slider touches the angle `fi` |
| `Viewer.SelectFi` | main.js:388-391 | `"pi/6"` gives `PI/6`, `"-pi/6"` gives `-PI/6`, any other value keeps `fi`; `fi` changes only for those two strings |
| `Viewer.Scene.constructor` | main.js:10-28 | the initial globals: view distance 15, surface pivot source, pivot `(0, 0)`, custom pivot at the origin, and parameters `R1 = 3`, `R2 = 2`, `fi = PI/6` at 30 x 30 |
| `Viewer.Scene.Effective` | main.js:32-41 | the scene's effective parameters differ from its slider record only in `fi`, which is negated exactly when `R1 < R2` |
| `Viewer.Scene.PivotVMax` | main.js:299-309 | the scene's height bound is non-negative and is zero if and only if `R1 == R2` |
| `Viewer.Scene.CurrentPivot` | main.js:89-98 | in surface mode, the evaluator's position at the pivot's `(u, v)` for the effective parameters; in any other mode, the custom coordinates verbatim |
| `Viewer.Scene.Regenerate` | main.js:226-251 | the surface is rebuilt from the effective parameters; the pivot follows `PlaceDefault` with the current bound; in custom mode the current pivot is unchanged; `Valid()` is kept |
| `Viewer.Scene.KeyDown` | main.js:295-330 | in surface mode the pivot moves by `Step` with the key and the current bound, recomputed from the current parameters; otherwise the pivot is unchanged; `v <= vMax` is preserved; `Valid()` is kept |
| `Viewer.Scene.Wheel` | main.js:332-338 | the view distance becomes `Zoom` of the old one, so it lies in `[3, 50]` after every wheel event |
| `Viewer.Scene.SetSlider` | main.js:373-386 | the slider's field is set and the surface regenerated, with the pivot following `PlaceDefault` for the new bound |
| `Viewer.Scene.SetFi` | main.js:388-393 | `fi` becomes `SelectFi` of the value and the surface is regenerated, whatever the value |
| `Viewer.Scene.SetPivotMode` | main.js:358-362 | the pivot mode becomes the radio button's value, any string; `Valid()` is kept |
| `Viewer.Scene.SetCustomPivot` | main.js:364-371 | the custom pivot becomes the three input values; `Valid()` is kept |
| `Viewer.Start` | main.js:276-290 | after initialisation the scene is valid and holds the given `tan` and evaluator, the default parameters, view distance 15, surface mode and the custom pivot at the origin; the pivot sits at `(PI, vMax/2)` with `vMax` the height bound of the default parameters and `tan(PI/6)`, and the surface was built from the default parameters |

## Left out

- WebGL buffer creation, binding and drawing (model.js): GPU plumbing. `Scene.surfaceFrom` only records the parameters the surface buffers were last built from.
- Texture loading (TextureHandler.js) and the first-time texture assignment in `regenerateSurface` (main.js:234-238): asynchronous I/O.
- `calcSurfacePoint`, `CreateSurfaceData`, `CreateSphereData` and `TrackballRotator` are not part of this model. The evaluator is the constructor parameter `surfacePoint`. The trackball's `setViewDistance` call (main.js:337) is a foreign call and is not modelled.
- The matrix and uniform assembly in `draw` (main.js:75-182), shader compilation (main.js:253-274), and the canvas and context setup in `init`: foreign `gl`/`m4` calls.
- The wireframe and texture checkboxes, the rotation slider and the rotation-axis buttons (main.js:340-356): each stores a value that only the left-out rendering reads.
- IEEE doubles and `Math.tan`: arithmetic is over reals and `tan` is an arbitrary function. The sentinel reachability lemma therefore holds over reals. With doubles, 25 subtractions of the step may not land exactly on `0`.
- `parseFloat` of the slider and pivot inputs: an update is the direct assignment of a real.
- Navigation.KeyOf: models `toLowerCase` as ASCII case folding only; letters outside ASCII are left as they are.
- `Scene.constructor`: `surfaceFrom` starts as the initial parameters, although no surface exists before the first regeneration.
