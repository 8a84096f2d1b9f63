# ABlur layer plan

A model of the `ablur-layer` web component's render computation
(`src/components/layer/index.ts`). The component draws a progressive-blur
overlay ("frosted glass fade") as a stack of absolutely positioned slices.
On every render it:

- normalises its inputs: `total = max(1, floor(layers))`,
  `endAt = clamp(endAt, 0, 100)`, `maxBlur = max(0, baseBlur)`;
- emits `total` weighted slices. Slice `i` has z-index `i+1`, blur
  `maxBlur*(i+1)/total`, additive mask compositing, and a mask that is
  transparent at 0% and at `s = e*((i+1)/(total+1))*0.9`, then opaque at
  `e` and at 100%. When `e` is 0 the mask is opaque at both 0% and 100%;
- emits one tail slice with z-index `total+1` and blur `maxBlur`. Its mask is
  transparent at 0% and opaque at `e`, at `e2 = clamp(e + 0.001, 0, 100)`
  and at 100%.

Module `Layer` (`layer.dfy`) holds the data model and the operations. The
model returns a structured descriptor per slice: z-index, blur, additive
flag, mask direction and the list of `(alpha, position)` stops. It does not
build CSS text. Numbers are `real`, and `Math.floor` is `.Floor`. Module
`LayerProperties` (`layer_properties.dfy`) proves the properties of the
plan: bounds, monotonicity, stop ordering, stacking order, the effect of
`flip`, and the worked scenarios.

Facts about the code worth knowing:

- The tail mask is transparent only at 0% and opaque from the `e`% stop on
  (line 79), so it ramps linearly from 0% to `e`. For
  `layers=1, baseBlur=0, endAt=0` it is opaque from 0% (`PlanTailMask`,
  `SingleLayerScenario`).
- The fade starts `s` of the weighted slices strictly increase with the
  slice index (`FadeStartIncreasing`, `PlanFadeStarts`).
- The fully opaque weighted mask occurs exactly when the clamped fade point
  is 0; after clamping it is never negative.
- `Array.from({length: total})` (line 101) throws a RangeError when `total`
  is 2^32 or more. `Render` returns that error; `Plan` is the slice list
  `render` emits otherwise.

## Model

| member | source | states |
|---|---|---|
| Layer.Max | src/components/layer/index.ts:56 | `Math.max`: the result is at least both arguments and equals one of them |
| Layer.Min | src/components/layer/index.ts:56 | `Math.min`: the result is at most both arguments and equals one of them |
| Layer.Clamp | src/components/layer/index.ts:55-57 | the result lies in [min, max] when min <= max; a value already in range is returned unchanged; below min gives min, above max gives max; crossed bounds give min |
| Layer.ClampPct | src/components/layer/index.ts:59-61 | the result is in [0, 100]; in-range values are unchanged; values below 0 become 0 and values above 100 become 100 |
| Layer.GradientDir | src/components/layer/index.ts:67-69 | the direction is "to top" exactly when flip is set, and "to bottom" exactly when it is not |
| Layer.EndAtFromTop | src/components/layer/index.ts:71-73 | the fade point is in [0, 100] and is unchanged when already in range |
| Layer.LayerCount | src/components/layer/index.ts:97 | total >= 1; total == floor(layers) when layers >= 1; total == 1 when layers < 1 |
| Layer.MaxBlur | src/components/layer/index.ts:99 | maxBlur >= 0; equals baseBlur when baseBlur is non-negative, and 0 otherwise |
| Layer.SliceBlur | src/components/layer/index.ts:102-103 | the blur of weighted slice i lies in [0, maxBlur], and the last weighted slice's blur is exactly maxBlur |
| Layer.FadeStart | src/components/layer/index.ts:90-91 | for e > 0 the fade start s satisfies 0 < s < e |
| Layer.WeightStops | src/components/layer/index.ts:83-94 | with the clamped fade point e == 0 the mask is opaque at 0% and 100%; otherwise it has four stops: transparent at 0% and at s with 0 < s < e, opaque at e and at 100% |
| Layer.RampStops | src/components/layer/index.ts:75-81 | four stops: transparent at 0%, opaque at e, opaque at e2 with e <= e2 <= 100 and e2 <= e + 0.001, opaque at 100% |
| Layer.WeightedSlice | src/components/layer/index.ts:101-108 | weighted slice i has z-index i+1, is additive, has a blur in [0, maxBlur] and the gradient direction chosen by flip |
| Layer.TailSlice | src/components/layer/index.ts:110 | the tail has z-index total+1, is not additive, has blur maxBlur and the gradient direction chosen by flip |
| Layer.Plan | src/components/layer/index.ts:96-110 | the plan has total+1 slices and the slice at position k has z-index k+1 |
| Layer.Render | src/components/layer/index.ts:96-110 | render fails with the array-length RangeError exactly when layers >= 2^32; otherwise its plan has total+1 <= 2^32 slices |
| LayerProperties.ClampPctIdempotent | src/components/layer/index.ts:72 | clamping an already clamped percentage again changes nothing, so the re-clamp of the fade point is harmless |
| LayerProperties.SliceBlurMonotone | src/components/layer/index.ts:102-103 | the weighted blur is non-decreasing in the slice index |
| LayerProperties.FadeStartIncreasing | src/components/layer/index.ts:90-91 | for e > 0 the fade start strictly increases with the slice index |
| LayerProperties.WeightStopsWellFormed | src/components/layer/index.ts:84-92 | each weighted mask's stops are in non-decreasing position order, lie in [0, 100], have alpha 0 or 1, start at 0% and end opaque at 100% |
| LayerProperties.RampStopsWellFormed | src/components/layer/index.ts:76-79 | the tail mask's stops 0 <= e <= e2 <= 100 are in order, with alpha 0 or 1, ending opaque at 100% |
| LayerProperties.PlanLayout | src/components/layer/index.ts:101-110 | the plan holds exactly total additive weighted slices with z-indices 1..total in order, then a non-additive tail with z-index total+1 above every weighted slice |
| LayerProperties.AdditiveCountAll | src/components/layer/index.ts:101-108 | a run of slices that all carry the additive class has as many additive slices as it has slices |
| LayerProperties.PlanAdditiveCount | src/components/layer/index.ts:101-116 | exactly total slices of the plan are additive weighted slices, and exactly one (the tail) is not |
| LayerProperties.PlanBlurs | src/components/layer/index.ts:99-110 | every blur in the plan lies in [0, maxBlur], blurs never decrease up the stack, and both the last weighted slice and the tail reach maxBlur |
| LayerProperties.PlanSliceBlur | src/components/layer/index.ts:102-103 | weighted slice i's blur times total equals maxBlur times (i+1) |
| LayerProperties.PlanUnfadedWhenEndAtZero | src/components/layer/index.ts:84-88 | when the clamped fade point is 0, every weighted mask is opaque at 0% and at 100% |
| LayerProperties.PlanFadeStarts | src/components/layer/index.ts:90-92 | when the clamped fade point e is positive, every weighted mask has four stops: transparent at 0% and at some s with 0 < s < e, opaque at e and at 100%; and s strictly increases up the stack |
| LayerProperties.FadeStartValue | src/components/layer/index.ts:90-91 | the fade start of slice i times (total+1) equals e * (i+1) * 0.9 |
| LayerProperties.PlanFadeStartValues | src/components/layer/index.ts:90-92 | when the clamped fade point e is positive, weighted slice k's fade-start stop times (total+1) equals e * (k+1) * 0.9 |
| LayerProperties.PlanTailMask | src/components/layer/index.ts:76-79 | the tail mask's stops are exactly: transparent at 0%, opaque at e, opaque at e2 = min(e + 0.001, 100) with e <= e2 <= 100, opaque at 100% |
| LayerProperties.PlanMasks | src/components/layer/index.ts:67-94 | every mask of the plan is well formed, and all masks are "to top" exactly when flip is set |
| LayerProperties.FlipOnlyChangesDirection | src/components/layer/index.ts:67-69 | toggling flip yields the same slices with only the mask direction replaced |
| LayerProperties.RenderOutcome | src/components/layer/index.ts:97-101 | render succeeds exactly when the normalised layer count is below 2^32, and then yields the plan |
| LayerProperties.DefaultScenario | src/components/layer/index.ts:6-10 | with the default properties (layers=2, baseBlur=12, endAt=0, height '100%', flip unset), the plan has two fully opaque weighted slices with blurs 6 and 12 and a tail with blur 12 that is opaque from 0%, all "to bottom" |
| LayerProperties.ThreeLayerScenario | src/components/layer/index.ts:96-110 | layers=3, baseBlur=12, endAt=50 gives blurs 4, 8, 12 and fade starts 11.25, 22.5, 33.75, plus a tail with blur 12 and stops at 0%, 50%, 50.001% and 100% |
| LayerProperties.SingleLayerScenario | src/components/layer/index.ts:96-110 | layers=1, baseBlur=0, endAt=0 gives one unblurred, fully opaque weighted slice and an unblurred tail opaque from 0% |
| LayerProperties.OutOfRangeScenario | src/components/layer/index.ts:97-99 | layers=0, baseBlur=-5, endAt=150 give the same plan as layers=1, baseBlur=0, endAt=100 |

## Left out

- CSS text: `blurCss`, the `mask-image` strings and their `-webkit-` duplicates (lines 63-65, 79-80, 86-87, 92-93). Their numbers depend on JavaScript's number-to-string formatting. Stops are modelled as numbers.
- IEEE-754 arithmetic: the rounding of the divisions and of the constants 0.9 and 0.001. The model uses exact, finite `real`s.
- NaN inputs (a non-numeric attribute such as `layers="abc"` becomes NaN). A NaN `layers` makes `total` NaN. `Array.from` reads that as length 0, so only the tail is emitted, with z-index NaN. A NaN `endAt` fails the `e <= 0` test at line 85, so every weighted mask takes the fade branch with NaN stop positions. A NaN `baseBlur` makes every blur NaN.
- An infinite `baseBlur`: `max(0, Infinity)` is `Infinity` and every blur becomes infinite. An infinite `layers` or `endAt` acts like a very large or very small finite value. `layers = Infinity` hits the RangeError, `layers = -Infinity` gives one weighted slice and the tail, as `layers = 1` does, and `endAt = ±Infinity` clamps to 100 or 0. The model covers the finite values that these cases match.
- Lit registration, decorators and attribute reflection (lines 1-10, 126-130). This is framework plumbing. The default property values of lines 6-10 are kept as `Layer.DefaultConfig`.
- The static stylesheet (lines 13-53), the `html` template, the `<slot>` for children, and the `--ablur-height` forwarding of `height` (lines 112-122). These are DOM output with no logic. `height` is kept in `Config` but is not part of the plan.
- Memory exhaustion: below the 2^32 array-length limit the model always yields a plan, while a browser may fail to allocate or render a very large number of slices.
