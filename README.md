# Drum machine knob: a Dafny model

This project models the two pieces of the drum-machine page that hold
logic of their own:

- **The rotary knob** (`src/structures/components/Knob.tsx`, module
  `KnobComponent` in `knob.dfy`). A knob configured with a total sweep of
  `degrees` turns between `startAngle = (360 - degrees) / 2` and
  `endAngle = startAngle + degrees`, a sweep centred on 180 degrees. Its
  first angle is the configured `value` converted linearly from
  `[min, max]` into the sweep and floored. While the knob is dragged, each
  mouse move turns the pointer offset from the knob's centre into an
  angle: the arctangent of `y / x` in degrees, plus 90 when the pointer is
  left of the centre and 270 otherwise, clamped into the sweep. An angle
  equal to the start of the sweep is stored one degree lower. The knob is
  the class `KnobComponent.Knob`: `currentDeg` is the component's `let`
  variable as the drag's `mousemove` listener sees it, `deg` its rendered
  state and `centre` the centre captured when the drag began. Each render
  sets the `let` variable back to the floored first angle, while the
  listener keeps the copy its closure captured; the difference is never
  observable, because the listener assigns `currentDeg` before reading it.
  Angle 180 points straight up on the knob face, 0 and 360 straight down.
- **The knob-value store slice** (`src/store/knobs/knobSlice.ts`, module
  `KnobSlice` in `knob_slice.dfy`). Three numbers (volume, pitch, pan) start
  at 50; the reducers `adjustVolume`, `adjustPitch` and `adjustPan` each
  overwrite one of them with the action's payload. The slice is modelled
  twice: as the pure reducer `KnobSlice.Reducer` over a `KnobState` value,
  and as the class `KnobSlice.KnobStore` whose methods assign one field in
  place, each proved to agree with the reducer.

Numbers are `real` (JavaScript `number` without its non-finite values and
without rounding); `Math.floor` is `.Floor`; `Math.min` and `Math.max` are
`Min` and `Max`.

Two behaviours of the code are reproduced rather than smoothed over.
The conversion into the sweep does not clamp, and the only knob on the
page is given `value={0}` with `min={1}` (`src/structures/pages/index.tsx:69`),
so it starts at 88 degrees, two degrees before its own sweep starts at 90
(`PageKnobStartsBelowSweep`). The value range starts at 1, so the middle
value 50 does not land at the middle of the sweep (180): the code gives
179 (`PageKnobValueFifty`).

## Model

| member | source | states |
|---|---|---|
| `KnobComponent.SweepOf` | src/structures/components/Knob.tsx:64-65 | the sweep is `degrees` wide and centred in the circle (`startAngle + endAngle == 360`); for `0 < degrees <= 360` it lies within `[0, 360]` with `startAngle < endAngle` |
| `KnobComponent.ConvertRange` | src/structures/components/Knob.tsx:54-62 | the conversion has a finite result exactly when the old range is not empty (an empty one divides by zero) |
| `KnobComponent.ConvertRangeEndpoints` | src/structures/components/Knob.tsx:61 | `oldMin` converts to `newMin` and `oldMax` to `newMax` |
| `KnobComponent.ConvertRangeWithin` | src/structures/components/Knob.tsx:61 | between increasing ranges, a value inside the old range converts to a value inside the new range |
| `KnobComponent.ConvertRangeMonotone` | src/structures/components/Knob.tsx:61 | between increasing ranges the conversion preserves order, for values inside and outside the old range |
| `KnobComponent.ConvertRangeStrict` | src/structures/components/Knob.tsx:61 | between ranges of positive width the conversion is strictly increasing |
| `KnobComponent.ConvertRangeOutside` | src/structures/components/Knob.tsx:61 | the conversion does not clamp: a value below the old range converts to one below the new range, a value above it to one above |
| `KnobComponent.ConvertRangeInverse` | src/structures/components/Knob.tsx:54-62 | converting back from the new range to the old one returns the original value |
| `KnobComponent.InitialDeg` | src/structures/components/Knob.tsx:66 | the first angle exists exactly when `min != max`; it is a whole number at most one degree below the converted value, and is not clamped into the sweep |
| `KnobComponent.PageKnobStartsBelowSweep` | src/structures/components/Knob.tsx:64-66 | for the page's knob (180 degrees, 1 to 100, value 0) the sweep is 90 to 270 and the first angle is 88, below the sweep |
| `KnobComponent.PageKnobValueFifty` | src/structures/components/Knob.tsx:66 | on the same knob the value 50 starts at 179 degrees |
| `KnobComponent.QuadrantOffset` | src/structures/components/Knob.tsx:75-79 | the quadrant test depends only on the sign of `x`: 90 when `x < 0`, otherwise 270, including `x == 0` |
| `KnobComponent.AdjustedAngle` | src/structures/components/Knob.tsx:73-79 | the unclamped angle is the arctangent plus 90 when the pointer is left of the centre (`x < 0`), and plus 270 otherwise |
| `KnobComponent.AdjustedAngleHalves` | src/structures/components/Knob.tsx:73-79 | with an arctangent in [-90, 90], a pointer left of the centre gives an angle in [0, 180] and any other in [180, 360] |
| `KnobComponent.GetDeg` | src/structures/components/Knob.tsx:70-82 | the result lies in `[startAngle, endAngle]`; it is the unclamped angle itself when that is in range, `startAngle` when it is at or before the start and `endAngle` when it is at or past the end; for a sweep of positive width the result is `startAngle` (or `endAngle`) exactly in those cases |
| `KnobComponent.VerticalPointer` | src/structures/components/Knob.tsx:73-81 | straight below the centre the knob goes to the end of its sweep; left of the centre, an arctangent at most `startAngle - 90` (reached close to the vertical below the centre when the sweep is narrower than the circle) clamps to the start; straight above the centre the angle is 180 |
| `KnobComponent.StoredAngle` | src/structures/components/Knob.tsx:96 | the tie-break never stores `startAngle`: a clamped angle equal to it is stored one degree lower, any other clamped angle as it is |
| `KnobComponent.MoveStoresAngle` | src/structures/components/Knob.tsx:95-97 | the stored angle is `startAngle - 1` exactly when the clamped angle is `startAngle`, otherwise it is the clamped angle; so it is `startAngle - 1` or lies in `(startAngle, endAngle]`, never on the start |
| `KnobComponent.Knob.constructor` | src/structures/components/Knob.tsx:64-68 | a mounted knob has the sweep of `SweepOf(degrees)`, `currentDeg` and `deg` equal to `InitialDeg`, and no drag in progress |
| `KnobComponent.Knob.StartDrag` | src/structures/components/Knob.tsx:84-92 | a drag captures the centre of the bounding box of the element under the pointer (the event's target), from its edges |
| `KnobComponent.Knob.MoveHandler` | src/structures/components/Knob.tsx:94-98 | during a drag, `currentDeg` and `deg` become the tie-broken clamped angle of the pointer offset from the captured centre, so `deg` is `startAngle - 1` or in `(startAngle, endAngle]`; with no drag nothing changes |
| `KnobComponent.Knob.MouseUp` | src/structures/components/Knob.tsx:100-103 | releasing the mouse ends the drag; the angle stays |
| `KnobSlice.InitialStateAllFifty` | src/store/knobs/knobSlice.ts:9-13 | every knob of the initial state is 50 |
| `KnobSlice.Reducer` | src/store/knobs/knobSlice.ts:15-29 | an action sets its own knob to the payload, whatever its value (no range check), and leaves the other two knobs unchanged |
| `KnobSlice.ReducerIdempotent` | src/store/knobs/knobSlice.ts:19-27 | dispatching the same action twice equals dispatching it once |
| `KnobSlice.ReducerCommutes` | src/store/knobs/knobSlice.ts:19-27 | actions on different knobs commute |
| `KnobSlice.ReducerLastWriteWins` | src/store/knobs/knobSlice.ts:19-27 | of two actions on the same knob, the second one decides the state |
| `KnobSlice.ApplyAllLastWriteWins` | src/store/knobs/knobSlice.ts:19-27 | after any sequence of actions, each knob holds the payload of the last action on it, or its earlier value if there was none |
| `KnobSlice.ApplyAllSwap` | src/store/knobs/knobSlice.ts:19-27 | swapping two adjacent actions on different knobs anywhere in a sequence leaves the final state unchanged |
| `KnobSlice.KnobStore.constructor` | src/store/knobs/knobSlice.ts:9-13 | a new store holds the initial state |
| `KnobSlice.KnobStore.AdjustVolume` | src/store/knobs/knobSlice.ts:19-21 | `volumeKnob` becomes the payload, `pitchKnob` and `panKnob` are unchanged, as `Reducer` says |
| `KnobSlice.KnobStore.AdjustPitch` | src/store/knobs/knobSlice.ts:22-24 | `pitchKnob` becomes the payload, the other two are unchanged, as `Reducer` says |
| `KnobSlice.KnobStore.AdjustPan` | src/store/knobs/knobSlice.ts:25-27 | `panKnob` becomes the payload, the other two are unchanged, as `Reducer` says |
| `KnobSlice.KnobStore.Dispatch` | src/store/knobs/knobSlice.ts:31-33 | dispatching an action through its case reducer changes the stored state as `Reducer` does |

## Left out

- The arctangent: `Math.atan(y / x) * 180 / Math.PI` is floating-point trigonometry. Its result is the parameter `atanDeg`, which the model does not tie to the pointer offset; the quadrant rule, clamp and tie-break are modelled exactly for every value of it.
- Non-finite numbers: `y / 0` (pointer straight above or below the centre) is ±Infinity in the source; the model covers that case only through `atanDeg` being ±90. A pointer exactly at the centre gives NaN, which passes through the clamp as NaN; this is not modelled.
- `KnobComponent.Knob.constructor`: requires `min != max`. With an empty value range the source's first angle is non-finite (±Infinity, or NaN when `value == min` or `degrees == 0`), which has no `real` counterpart; `ConvertRange` and `InitialDeg` return `None` for that case instead.
- Floating-point rounding of the conversion and of the sweep: all arithmetic is exact over `real`.
- `KnobComponent.Knob.StartDrag`: models one drag at a time. The source adds a new `mousemove` listener on every `mousedown` and a `mouseup` listener that is never removed; several drags without a `mouseup` in between would stack listeners, which the single `centre` field does not capture.
- `KnobComponent.Knob.StartDrag`: the box whose centre is captured is given as parameters; which element it belongs to is not modelled. On the knob face the target is the inner disc, centred like the knob; a drag started on the small grip dot measures angles around the grip's own centre near the rim, which the model does not distinguish.
- React and DOM plumbing: `preventDefault`, `getBoundingClientRect` (its result is the parameters of `StartDrag`), the `useState` re-render, event-listener registration, the style objects and their JSON copy, and the markup.
- `src/store/store.ts`: the `configureStore` wrapper is library glue; the slice's reducer is modelled directly.
- The page, the slider, the styles, the sound re-exports and the build configuration hold no logic beyond fixed attributes.
- Drum-pad dispatch, the power and bank toggles and sample playback: the pads and buttons on the page have no handlers, so there is no such behaviour to model.
