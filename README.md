# Barcode mask overlay, modelled in Dafny

The barcode mask is a React Native overlay for a camera scanner. It draws a
finder box with four corner brackets ("edges"), a dimmed mask around the
box with a transparent cut-out over it, and an optional scan-line. The
scan-line moves back and forth across the box.

The project models the two parts of `src/BarcodeMask.tsx` that have
behaviour which can be stated exactly:

- `oscillation.dfy`, module `Oscillation`: the scan-line's oscillation driver
  `runTiming`. Its five animated cells are `finished`, `position`, `time`,
  `frameTime` and `toValue`. They form the class `Driver`, and `Frame` runs
  one evaluation of the animation block. The animation library's `timing`
  primitive is not modelled: each frame takes as input the timing state that
  `timing` wrote. `Next`, `ResetBlock` and `Finishes` are the pure
  specification of that step and of a whole trace of frames. The lemmas prove
  that the driver alternates between its endpoints, assuming `timing` ends
  every finished run exactly on `toValue` (`Honest`).
- `style_records.dfy`, module `StyleRecords`: a style object is a datatype with
  one optional field per key. `Get` looks up one key. JavaScript object spread
  is `Merge`, which is right-biased: every key of the later object overrides
  the same key of the earlier one.
- `barcode_mask.dfy`, module `BarcodeMask`: the props and the component's
  default props (`Resolve`), and the style records the component builds.
  These are the scan-line style with its start and destination, the four
  corner-edge styles, the mask-frame style, the finder style and the cut-out
  style, gathered by `Render`.

Two points where the code is subtle:

- The scan-line's destination uses JavaScript `||`, so an explicit
  `destinationValue` of `0` also falls back to the computed span. The model
  follows the code. The prop's documentation (lines 107-108) describes the
  computed span as the default, that is a fallback only when the prop is
  undefined (`??`). `ExplicitZeroDestination` states exactly when
  the two readings differ. For `startValue || 0` the two readings always
  agree (`LineStart`).
- In the reset block, the comparison that picks the next `toValue` reads the
  position that was just written. `ResetBlock` proves that the outcome is the
  same as comparing the position `timing` reported.

## Model

| member | source | states |
|---|---|---|
| `StyleRecords.Merge` | src/BarcodeMask.tsx:298-305 | A spread `{...a, ...b}`: every key `b` defines has `b`'s value; every key `b` leaves out keeps `a`'s value |
| `Oscillation.ResetBlock` | src/BarcodeMask.tsx:178-190 | Not finished: nothing changes. Finished: `finished`, `time` and `frameTime` become 0. A position on `destination` stays there with target `value`. Any other position snaps to `value` with target `destination`. Comparing the updated position gives the same result as comparing the original one |
| `Oscillation.Next` | src/BarcodeMask.tsx:177-190 | One frame: when `timing` has not finished, the cells are exactly what `timing` wrote and `toValue` is kept. When it has finished, `finished`, `time` and `frameTime` are 0; a reported position on `destination` stays there with target `value`, any other snaps to `value` with target `destination` |
| `Oscillation.FinishRestsOnEndpoint` | src/BarcodeMask.tsx:177-189 | Whatever `timing` reports, after a finishing frame the driver rests on `value` or `destination`, and its target is the other endpoint (or the same one when the endpoints coincide) |
| `Oscillation.RunningFrame` | src/BarcodeMask.tsx:177-191 | In a frame where `timing` has not finished, the state is exactly what `timing` wrote, `toValue` is unchanged, and the output is `timing`'s position |
| `Oscillation.HonestFinishFlips` | src/BarcodeMask.tsx:177-189 | With distinct endpoints, a run that finishes on its target leaves the driver resting on that target and aiming at the other endpoint |
| `Oscillation.Alternation` | src/BarcodeMask.tsx:175-192 | With distinct endpoints and an honest `timing`: the i-th finish rests on the starting target when i is even and on the other endpoint when i is odd. Its new target is the opposite one, and the bookkeeping is cleared each time |
| `Oscillation.AlternationFromStart` | src/BarcodeMask.tsx:162-192 | From a freshly started driver, finishes rest on `destination`, `value`, `destination`, … and aim at `value`, `destination`, `value`, … |
| `Oscillation.StuckWhenEndpointsCoincide` | src/BarcodeMask.tsx:182-189 | When `value = destination`, every finish, honest or not, rests on `destination` and aims at it again |
| `Oscillation.Driver.constructor` | src/BarcodeMask.tsx:162-173 | A new driver starts with `finished = 0`, `position = value`, `time = 0`, `frameTime = 0`, `toValue = destination` |
| `Oscillation.Driver.Frame` | src/BarcodeMask.tsx:175-192 | One evaluation of the block moves the cells to `Next` of the old cells and of what `timing` wrote, and returns the new `position` |
| `BarcodeMask.Resolve` | src/BarcodeMask.tsx:342-358 | `startValue` and `destinationValue` have no default and reach the component as the host passed them |
| `BarcodeMask.DefaultsWhenNothingPassed` | src/BarcodeMask.tsx:342-358 | With no props: width 280, height 230, edges 20×20 `#fff` with border 4 and radius 0, mask `#eee` at opacity 1, line shown, `#fff`, horizontal, 2 thick, 2000 ms |
| `BarcodeMask.ExplicitPropsWin` | src/BarcodeMask.tsx:342-358 | When every prop is passed (`Explicit`), resolving returns exactly the props passed |
| `BarcodeMask.PassedPropsWinOmittedTakeDefaults` | src/BarcodeMask.tsx:342-358 | For any mix of passed and omitted props: each passed prop is used as given, and each omitted one takes its default (width 280, height 230, edges 20×20 `#fff`, border 4, radius 0, mask `#eee` at opacity 1, line shown, 2 thick, horizontal, `#fff`, 2000 ms); `startValue` and `destinationValue` have no default |
| `BarcodeMask.LineStart` | src/BarcodeMask.tsx:227 | The line starts at `startValue`, or at 0 when it is undefined; `||` agrees with `??` here |
| `BarcodeMask.LineDestination` | src/BarcodeMask.tsx:228-229 | A non-zero `destinationValue` is used as given. An undefined or zero one puts the line's far edge on the finder's far edge: destination + thickness equals the height (horizontal) or the width (vertical) |
| `BarcodeMask.ExplicitZeroDestination` | src/BarcodeMask.tsx:243-244 | The `||` destination differs from a `??` destination exactly when the host passes 0 and the computed span is non-zero |
| `BarcodeMask.Drive` | src/BarcodeMask.tsx:225-231 | The line's driver gets start `startValue` (or 0), the destination `LineDestination` computes and the animation duration |
| `BarcodeMask.StartLineDriver` | src/BarcodeMask.tsx:240-246 | Starting the line's driver gives a fresh driver at rest on the line start and aiming at the line destination |
| `BarcodeMask.LineStyle` | src/BarcodeMask.tsx:218-248 | The line is absolute with `zIndex` 1 and the line colour. Horizontal: as high as the thickness, 0.9 of the width, driven `top`, no `left`. Vertical: as wide as the thickness, 0.9 of the height, driven `left`, no `top`. It defines no other key |
| `BarcodeMask.ShownLine` | src/BarcodeMask.tsx:319 | The line is rendered if and only if `showAnimatedLine` is set |
| `BarcodeMask.EdgeStyle` | src/BarcodeMask.tsx:298-305 | A corner edge is absolute with `zIndex` 2, `edgeWidth`×`edgeHeight` and border colour `edgeColor`, and has no background, overall radius, opacity or `flex` |
| `BarcodeMask.EdgeStyleKey` | src/BarcodeMask.tsx:254-306 | For every key, a corner's edge style holds the reference value from `EdgeReference` |
| `BarcodeMask.EdgeStyleMatchesReference` | src/BarcodeMask.tsx:254-306 | Each corner edge is absolute, `zIndex` 2, `edgeWidth`×`edgeHeight`, `edgeColor`. It has border width `edgeBorderWidth` on exactly its two adjoining sides, `edgeRadius` on its own corner only and offset `−edgeBorderWidth` on its two sides, and no other key |
| `BarcodeMask.BorderOffsetsSpreadLast` | src/BarcodeMask.tsx:298-305 | The base corner style anchors at 0. The edge ends at `−edgeBorderWidth` only because the border style is spread last: with the last two spreads swapped it would be at 0 |
| `BarcodeMask.MaskFrameStyle` | src/BarcodeMask.tsx:250-252 | The dimmed mask has the background colour, the mask opacity and `flex` 1, and no other key |
| `BarcodeMask.FinderStyle` | src/BarcodeMask.tsx:312 | The finder has `zIndex` 1 and the configured width and height, and no other key |
| `BarcodeMask.CutOutStyle` | src/BarcodeMask.tsx:325-332 | The cut-out is transparent, has the finder's width and height and radius `edgeRadius`, and no other key |
| `BarcodeMask.Render` | src/BarcodeMask.tsx:309-337 | The cut-out has the finder's width and height, is transparent and has radius `edgeRadius`. The centre row has the finder's height. The left and right strips are the mask-frame style. The top and bottom rows are the same, 100% wide, in the mask colour and opacity. The finder has `zIndex` 1 and the configured width and height. Each corner view carries that corner's `EdgeStyle`. The line is `ShownLine`, so it exists exactly when it is enabled |
| `BarcodeMask.DefaultTopLeftEdge` | src/BarcodeMask.tsx:254-305 | With the default props the top-left edge is 20×20 with 4-point top and left borders only, offset by −4 on top and left and anchored on no other side |
| `BarcodeMask.DefaultVerticalLine` | src/BarcodeMask.tsx:235-246 | A vertical line with default props and no destination drives `left` from 0 to 278 over 2000 ms |

## Left out

- `timing` and the `Easing.inOut(Easing.ease)` curve come from the animation library and use floating-point interpolation. A frame takes `timing`'s output as input. That a finished run ends on `toValue` is a hypothesis (`Honest`), not a proved fact. The claim that a round trip takes twice the duration is not modelled.
- `Clock`, `startClock` and the frame scheduling belong to the framework. The clock is not a parameter of the model, and `Driver.duration` is only recorded.
- `runTimingFn` injection: the line style records the arguments the line passes to its driver (`LineDrive`). The model covers only the built-in driver (`StartLineDriver`). A host-supplied driver is code outside this model.
- `onLayoutChange` and its `noop` fallback only forward a framework layout event. They are not modelled.
- JSX tree construction, `memo`, and the flexbox layout keys (`alignItems`, `justifyContent`, `flexDirection`, `display`, the `container` and `maskOuter` styles) are left out. The framework computes the layout from them. `Render` keeps only the style records that the component builds itself.
- String `DimensionUnit` values (such as `'50%'`) for `width`, `height`, `edgeWidth`, `edgeHeight` and `edgeBorderWidth` are not modelled; only numbers are. In the code `as number` is only a compile-time assertion: a string is passed unchanged into the finder, cut-out and edge styles (lines 312, 328-329 and 257), but in the line's arithmetic (`width * 0.9`, `height - thickness`) and in `-edgeBorderWidth` it yields `NaN`. The `'100%'` width of the mask rows is the one percentage the model has.
- The code computes with IEEE-754 doubles; the model uses exact reals. `width * 0.9`, `height - animatedLineThickness`, `-edgeBorderWidth` and the `eq(position, destination)` comparison in the reset block are exact here, so rounding of those results is not modelled.
- Colours are opaque strings, and `NaN` is not modelled: Dafny reals have no `NaN`, so the `||` fallback treats only `undefined` and `0` as falsy.
- A prop passed as `null` is not modelled: `None` stands for a prop left undefined, which React replaces with its default.
- Resolve: its own contract states only that `startValue` and `destinationValue` pass through unchanged. The defaults for every omitted prop, and that every passed prop is kept, are stated for all props by `PassedPropsWinOmittedTakeDefaults`.
