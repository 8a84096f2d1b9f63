/** The layer plan of the `ablur-layer` progressive-blur component.

    On every render the component normalises its numeric inputs and emits a
    stack of absolutely positioned slices: `total` "weighted" slices whose
    blur radius ramps up linearly and whose masks fade in before the fade
    point `endAt`, plus one tail slice at full blur. This module computes a
    structured descriptor per slice (z-index, blur, mask direction and the
    mask's colour stops) instead of the CSS text the component writes.

    JavaScript numbers are modelled as (finite) reals; `Math.floor` is
    `.Floor`.
 */
module Layer {

  /** The component's reactive properties. `height` is only forwarded to a
      CSS custom property and plays no part in the plan. */
  datatype Config = Config(layers: real, baseBlur: real, endAt: real, height: string, flip: bool)

  /** The property values a freshly created component starts with. */
  const DefaultConfig: Config := Config(2.0, 12.0, 0.0, "100%", false)

  /** Direction of every linear-gradient mask: which edge is the 0% origin. */
  datatype Direction = ToTop | ToBottom

  /** One colour stop of a mask: black at the given alpha (0 transparent,
      1 opaque) at the given percentage along the gradient. */
  datatype Stop = Stop(alpha: real, pos: real)

  datatype Mask = Mask(dir: Direction, stops: seq<Stop>)

  /** One slice of the stack. `additive` is the `add` class, which selects
      additive mask compositing; only the weighted slices carry it. */
  datatype Slice = Slice(z: int, blur: real, mask: Mask, additive: bool)

  /** The width of the tail mask's final step, in percentage points. */
  const RampEpsilon: real := 0.001

  /** The share of `endAt` by which the last weighted slice starts its fade. */
  const FadeScale: real := 0.9

  const Transparent: real := 0.0
  const Opaque: real := 1.0

  /** `Math.max` on finite numbers. */
  function Max(a: real, b: real): (r: real)
    ensures r >= a && r >= b
    ensures r == a || r == b
  {
    if a >= b then a else b
  }

  /** `Math.min` on finite numbers. */
  function Min(a: real, b: real): (r: real)
    ensures r <= a && r <= b
    ensures r == a || r == b
  {
    if a <= b then a else b
  }

  /** `clamp(v, min, max)`: `v` pulled into [lo, hi]; when the bounds are
      crossed, `lo` wins because `Math.max` is applied last. */
  function Clamp(v: real, lo: real, hi: real): (r: real)
    ensures lo <= hi ==> lo <= r <= hi
    ensures lo <= v <= hi ==> r == v
    ensures v < lo ==> r == lo
    ensures lo <= hi < v ==> r == hi
    ensures hi < lo ==> r == lo
  {
    Max(lo, Min(hi, v))
  }

  /** `clampPct`: a percentage pulled into [0, 100]. */
  function ClampPct(v: real): (r: real)
    ensures 0.0 <= r <= 100.0
    ensures 0.0 <= v <= 100.0 ==> r == v
    ensures v < 0.0 ==> r == 0.0
    ensures v > 100.0 ==> r == 100.0
  {
    Clamp(v, 0.0, 100.0)
  }

  /** `gradientDir`: "to top" exactly when the component is flipped. */
  function GradientDir(flip: bool): (d: Direction)
    ensures d == ToTop <==> flip
    ensures d == ToBottom <==> !flip
  {
    if flip then ToTop else ToBottom
  }

  /** `endAtFromTop`: the fade point as a percentage from the 0% edge. */
  function EndAtFromTop(endAt: real): (e: real)
    ensures 0.0 <= e <= 100.0
    ensures 0.0 <= endAt <= 100.0 ==> e == endAt
  {
    ClampPct(endAt)
  }

  /** The normalised layer count `max(1, floor(layers))`. */
  function LayerCount(layers: real): (total: int)
    ensures total >= 1
    ensures layers >= 1.0 ==> total == layers.Floor
    ensures layers < 1.0 ==> total == 1
    ensures total as real <= Max(layers, 1.0) < total as real + 1.0
  {
    if 1 >= layers.Floor then 1 else layers.Floor
  }

  /** The normalised maximum blur `max(0, baseBlur)`. */
  function MaxBlur(baseBlur: real): (m: real)
    ensures m >= 0.0
    ensures baseBlur >= 0.0 ==> m == baseBlur
    ensures baseBlur < 0.0 ==> m == 0.0
  {
    Max(0.0, baseBlur)
  }

  /** Blur radius of weighted slice `i` of `total`: `maxBlur * (i+1)/total`. */
  function SliceBlur(i: nat, total: nat, maxBlur: real): (b: real)
    requires i < total
    requires maxBlur >= 0.0
    ensures 0.0 <= b <= maxBlur
    ensures i == total - 1 ==> b == maxBlur
  {
    var t := (i + 1) as real / total as real;
    FracInUnit((i + 1) as real, total as real);
    MulBounded(maxBlur, t);
    maxBlur * t
  }

  /** A fraction n / d with 0 < n <= d lies in (0, 1], and below 1 when n < d. */
  lemma FracInUnit(n: real, d: real)
    requires 0.0 < n <= d
    ensures 0.0 < n / d <= 1.0
    ensures n < d ==> n / d < 1.0
  {
    assert n / d * d == n;
  }

  /** For m >= 0 and 0 <= t <= 1, m * t lies in [0, m]. */
  lemma MulBounded(m: real, t: real)
    requires m >= 0.0 && 0.0 <= t <= 1.0
    ensures 0.0 <= m * t <= m
  {
    assert m * t <= m * 1.0 by { assert m * (1.0 - t) >= 0.0; }
  }

  /** Start of the fade of weighted slice `i`: `e * ((i+1)/(total+1) * 0.9)`. */
  function FadeStart(i: nat, total: nat, e: real): (s: real)
    requires i < total
    requires e > 0.0
    ensures 0.0 < s < e
  {
    var t := (i + 1) as real / (total + 1) as real;
    FracInUnit((i + 1) as real, (total + 1) as real);
    assert 0.0 < t * FadeScale < 1.0;
    MulBelow(e, t * FadeScale);
    e * (t * FadeScale)
  }

  /** For e > 0 and 0 < u < 1, e * u lies strictly between 0 and e. */
  lemma MulBelow(e: real, u: real)
    requires e > 0.0 && 0.0 < u < 1.0
    ensures 0.0 < e * u < e
  {
    assert e * (1.0 - u) > 0.0;
  }

  /** `weightMaskCss` as a stop list: fully opaque when the fade point is at
      0%, otherwise transparent up to the fade start and opaque from the
      fade point on. */
  function WeightStops(i: nat, total: nat, endAt: real): (stops: seq<Stop>)
    requires i < total
    ensures var e := EndAtFromTop(endAt);
      && (e <= 0.0 ==> stops == [Stop(Opaque, 0.0), Stop(Opaque, 100.0)])
      && (e > 0.0 ==>
            && |stops| == 4
            && stops[0] == Stop(Transparent, 0.0)
            && stops[1].alpha == Transparent && 0.0 < stops[1].pos < e
            && stops[2] == Stop(Opaque, e)
            && stops[3] == Stop(Opaque, 100.0))
  {
    var e := EndAtFromTop(endAt);
    if e <= 0.0 then
      [Stop(Opaque, 0.0), Stop(Opaque, 100.0)]
    else
      var s := FadeStart(i, total, e);
      [Stop(Transparent, 0.0), Stop(Transparent, s), Stop(Opaque, e), Stop(Opaque, 100.0)]
  }

  /** `rampMaskCss` as a stop list: transparent only at 0%, opaque at the
      fade point, at the fade point plus epsilon (clamped) and at 100%. */
  function RampStops(endAt: real): (stops: seq<Stop>)
    ensures var e := EndAtFromTop(endAt);
      && |stops| == 4
      && stops[0] == Stop(Transparent, 0.0)
      && stops[1] == Stop(Opaque, e)
      && stops[2].alpha == Opaque && e <= stops[2].pos <= 100.0
      && stops[2].pos <= e + RampEpsilon
      && stops[3] == Stop(Opaque, 100.0)
  {
    var e := EndAtFromTop(endAt);
    var e2 := ClampPct(e + RampEpsilon);
    [Stop(Transparent, 0.0), Stop(Opaque, e), Stop(Opaque, e2), Stop(Opaque, 100.0)]
  }

  /** Weighted slice `i`: z-index `i+1`, additive, ramped blur and fade mask. */
  function WeightedSlice(i: nat, total: nat, maxBlur: real, endAt: real, flip: bool): (sl: Slice)
    requires i < total && maxBlur >= 0.0
    ensures sl.z == i + 1 && sl.additive
    ensures 0.0 <= sl.blur <= maxBlur
    ensures sl.mask.dir == GradientDir(flip)
  {
    Slice(1 + i, SliceBlur(i, total, maxBlur), Mask(GradientDir(flip), WeightStops(i, total, endAt)), true)
  }

  /** The tail slice: z-index `total+1`, not additive, full blur, ramp mask. */
  function TailSlice(total: nat, maxBlur: real, endAt: real, flip: bool): (sl: Slice)
    ensures sl.z == total + 1 && !sl.additive
    ensures sl.blur == maxBlur
    ensures sl.mask.dir == GradientDir(flip)
  {
    Slice(1 + total, maxBlur, Mask(GradientDir(flip), RampStops(endAt)), false)
  }

  /** The length limit of a JavaScript array: `Array.from({length: n})`
      throws a RangeError when n is 2^32 or more. */
  const ArrayLengthLimit: int := 0x1_0000_0000

  datatype RenderError = InvalidArrayLength

  datatype Result<T> = Ok(value: T) | Err(error: RenderError)

  /** The slices `render` emits, bottom to top: the weighted slices in order,
      then the tail. */
  function Plan(c: Config): (plan: seq<Slice>)
    ensures |plan| == LayerCount(c.layers) + 1
    ensures forall k :: 0 <= k < |plan| ==> plan[k].z == k + 1
  {
    var total := LayerCount(c.layers);
    var endAt := ClampPct(c.endAt);
    var maxBlur := MaxBlur(c.baseBlur);
    var slices := seq(total, i requires 0 <= i < total => WeightedSlice(i, total, maxBlur, endAt, c.flip));
    slices + [TailSlice(total, maxBlur, endAt, c.flip)]
  }

  /** `render`: the plan, or the RangeError that `Array.from` throws when the
      normalised layer count does not fit a JavaScript array length. */
  function Render(c: Config): (r: Result<seq<Slice>>)
    ensures r.Err? <==> c.layers >= ArrayLengthLimit as real
    ensures r.Ok? ==> |r.value| == LayerCount(c.layers) + 1 <= ArrayLengthLimit
  {
    var total := LayerCount(c.layers);
    if total >= ArrayLengthLimit then Err(InvalidArrayLength) else Ok(Plan(c))
  }
}
