/** Properties of the layer plan: normalisation, the blur ramp, the order of
    mask stops and fade starts, the stacking order, and the effect of `flip`.
 */
module LayerProperties {
  import opened Layer

  /** The stop positions never go backwards along the gradient. */
  predicate StopsOrdered(stops: seq<Stop>) {
    forall j, k :: 0 <= j < k < |stops| ==> stops[j].pos <= stops[k].pos
  }

  /** Every stop lies within the element, between 0% and 100%. */
  predicate StopsWithin(stops: seq<Stop>) {
    forall k :: 0 <= k < |stops| ==> 0.0 <= stops[k].pos <= 100.0
  }

  /** Every stop is either fully transparent or fully opaque. */
  predicate StopsBinary(stops: seq<Stop>) {
    forall k :: 0 <= k < |stops| ==> stops[k].alpha == Transparent || stops[k].alpha == Opaque
  }

  predicate WellFormedMask(m: Mask) {
    StopsOrdered(m.stops) && StopsWithin(m.stops) && StopsBinary(m.stops)
      && |m.stops| >= 2 && m.stops[0].pos == 0.0 && m.stops[|m.stops| - 1] == Stop(Opaque, 100.0)
  }

  /** Re-clamping an already clamped percentage changes nothing, so the
      second clamp `weightMaskCss` and `rampMaskCss` apply to the fade point
      `render` has already clamped is harmless. */
  lemma ClampPctIdempotent(v: real)
    ensures ClampPct(ClampPct(v)) == ClampPct(v)
    ensures EndAtFromTop(ClampPct(v)) == ClampPct(v)
  {
  }

  /** The blur ramp is non-decreasing in the slice index. */
  lemma SliceBlurMonotone(i: nat, j: nat, total: nat, maxBlur: real)
    requires i <= j < total && maxBlur >= 0.0
    ensures SliceBlur(i, total, maxBlur) <= SliceBlur(j, total, maxBlur)
  {
    var ti := (i + 1) as real / total as real;
    var tj := (j + 1) as real / total as real;
    assert ti <= tj;
    assert maxBlur * (tj - ti) >= 0.0;
  }

  /** The fade start strictly increases with the slice index: later slices
      start fading later, all before the fade point. */
  lemma FadeStartIncreasing(i: nat, j: nat, total: nat, e: real)
    requires i < j < total && e > 0.0
    ensures FadeStart(i, total, e) < FadeStart(j, total, e)
  {
    var ti := (i + 1) as real / (total + 1) as real;
    var tj := (j + 1) as real / (total + 1) as real;
    assert ti < tj;
    assert e * ((tj - ti) * FadeScale) > 0.0;
  }

  /** The fade start of slice `i` is the share (i+1)/(total+1) of 0.9 * e. */
  lemma FadeStartValue(i: nat, total: nat, e: real)
    requires i < total && e > 0.0
    ensures FadeStart(i, total, e) * (total + 1) as real == e * (i + 1) as real * FadeScale
  {
    var t := (i + 1) as real / (total + 1) as real;
    assert t * (total + 1) as real == (i + 1) as real;
  }

  /** Each weighted mask is well formed: 0 <= s < e <= 100, or [0, 100]. */
  lemma WeightStopsWellFormed(i: nat, total: nat, endAt: real, dir: Direction)
    requires i < total
    ensures WellFormedMask(Mask(dir, WeightStops(i, total, endAt)))
  {
    var stops := WeightStops(i, total, endAt);
    assert forall k :: 0 <= k < |stops| - 1 ==> stops[k].pos <= stops[k + 1].pos;
  }

  /** The tail mask is well formed: 0 <= e <= e2 <= 100. */
  lemma RampStopsWellFormed(endAt: real, dir: Direction)
    ensures WellFormedMask(Mask(dir, RampStops(endAt)))
  {
    var stops := RampStops(endAt);
    assert forall k :: 0 <= k < |stops| - 1 ==> stops[k].pos <= stops[k + 1].pos;
  }

  /** The plan holds `total` additive weighted slices with z-indices 1..total,
      then one non-additive tail with z-index total+1 above all of them. */
  lemma PlanLayout(c: Config)
    ensures var plan, total := Plan(c), LayerCount(c.layers);
      && |plan| == total + 1
      && (forall k :: 0 <= k < total ==> plan[k].additive && plan[k].z == k + 1)
      && !plan[total].additive
      && plan[total].z == total + 1
      && (forall k :: 0 <= k < total ==> plan[k].z < plan[total].z)
  {
  }

  /** The number of slices in `slices` that composite additively. */
  function AdditiveCount(slices: seq<Slice>): (n: nat)
    ensures n <= |slices|
  {
    if |slices| == 0 then 0
    else AdditiveCount(slices[..|slices| - 1]) + (if slices[|slices| - 1].additive then 1 else 0)
  }

  lemma {:induction false} AdditiveCountAll(slices: seq<Slice>)
    requires forall k :: 0 <= k < |slices| ==> slices[k].additive
    ensures AdditiveCount(slices) == |slices|
  {
    if |slices| > 0 {
      AdditiveCountAll(slices[..|slices| - 1]);
    }
  }

  /** Exactly `total` slices of the plan are weighted (additive) ones; the
      remaining slice is the tail. */
  lemma {:induction false} PlanAdditiveCount(c: Config)
    ensures AdditiveCount(Plan(c)) == LayerCount(c.layers)
    ensures |Plan(c)| - AdditiveCount(Plan(c)) == 1
  {
    var plan, total := Plan(c), LayerCount(c.layers);
    assert plan[..total] + [plan[total]] == plan;
    AdditiveCountAll(plan[..total]);
  }

  /** Every blur lies in [0, maxBlur], the blurs never decrease up the stack,
      and both the last weighted slice and the tail reach maxBlur. */
  lemma PlanBlurs(c: Config)
    ensures var plan, total, m := Plan(c), LayerCount(c.layers), MaxBlur(c.baseBlur);
      && (forall k :: 0 <= k < |plan| ==> 0.0 <= plan[k].blur <= m)
      && (forall j, k :: 0 <= j <= k < |plan| ==> plan[j].blur <= plan[k].blur)
      && plan[total - 1].blur == m
      && plan[total].blur == m
  {
    var plan, total, m := Plan(c), LayerCount(c.layers), MaxBlur(c.baseBlur);
    forall j, k | 0 <= j <= k < |plan|
      ensures plan[j].blur <= plan[k].blur
    {
      if k < total {
        SliceBlurMonotone(j, k, total, m);
      }
    }
  }

  /** The blur of weighted slice `i` is `maxBlur * (i+1)/total`. */
  lemma PlanSliceBlur(c: Config, i: nat)
    requires i < LayerCount(c.layers)
    ensures Plan(c)[i].blur * LayerCount(c.layers) as real == MaxBlur(c.baseBlur) * (i + 1) as real
  {
    var total, m := LayerCount(c.layers), MaxBlur(c.baseBlur);
    var t := (i + 1) as real / total as real;
    assert t * total as real == (i + 1) as real;
    assert Plan(c)[i].blur == m * t;
  }

  /** With the fade point at 0% every weighted mask is fully opaque. */
  lemma PlanUnfadedWhenEndAtZero(c: Config)
    requires ClampPct(c.endAt) == 0.0
    ensures var plan, total := Plan(c), LayerCount(c.layers);
      forall k :: 0 <= k < total ==> plan[k].mask.stops == [Stop(Opaque, 0.0), Stop(Opaque, 100.0)]
  {
  }

  /** With the fade point e > 0, each weighted mask is transparent up to a
      fade start s with 0 < s < e, opaque from e on, and s strictly
      increases up the stack. */
  lemma PlanFadeStarts(c: Config)
    requires ClampPct(c.endAt) > 0.0
    ensures var plan, total, e := Plan(c), LayerCount(c.layers), ClampPct(c.endAt);
      && (forall k :: 0 <= k < total ==>
            && |plan[k].mask.stops| == 4
            && plan[k].mask.stops[0] == Stop(Transparent, 0.0)
            && plan[k].mask.stops[1].alpha == Transparent
            && 0.0 < plan[k].mask.stops[1].pos < e
            && plan[k].mask.stops[2] == Stop(Opaque, e)
            && plan[k].mask.stops[3] == Stop(Opaque, 100.0))
      && (forall j, k :: 0 <= j < k < total ==>
            plan[j].mask.stops[1].pos < plan[k].mask.stops[1].pos)
  {
    var plan, total, e := Plan(c), LayerCount(c.layers), ClampPct(c.endAt);
    ClampPctIdempotent(c.endAt);
    forall j, k | 0 <= j < k < total
      ensures plan[j].mask.stops[1].pos < plan[k].mask.stops[1].pos
    {
      FadeStartIncreasing(j, k, total, e);
    }
  }

  /** With the fade point e > 0, the fade start s of weighted slice k is
      `e * (k+1)/(total+1) * 0.9`, stated without the division. */
  lemma PlanFadeStartValues(c: Config)
    requires ClampPct(c.endAt) > 0.0
    ensures var plan, total, e := Plan(c), LayerCount(c.layers), ClampPct(c.endAt);
      forall k :: 0 <= k < total ==>
        plan[k].mask.stops[1].pos * (total + 1) as real == e * (k + 1) as real * FadeScale
  {
    var plan, total, e := Plan(c), LayerCount(c.layers), ClampPct(c.endAt);
    ClampPctIdempotent(c.endAt);
    forall k | 0 <= k < total
      ensures plan[k].mask.stops[1].pos * (total + 1) as real == e * (k + 1) as real * FadeScale
    {
      assert plan[k].mask.stops[1].pos == FadeStart(k, total, e);
      FadeStartValue(k, total, e);
    }
  }

  /** The tail mask is transparent only at 0% and opaque from the fade point
      e, through e2 = min(e + 0.001, 100), to 100%. */
  lemma PlanTailMask(c: Config)
    ensures var plan, total, e := Plan(c), LayerCount(c.layers), ClampPct(c.endAt);
      && plan[total].mask.stops
           == [Stop(Transparent, 0.0), Stop(Opaque, e), Stop(Opaque, Min(e + RampEpsilon, 100.0)), Stop(Opaque, 100.0)]
      && e <= Min(e + RampEpsilon, 100.0) <= 100.0
  {
    ClampPctIdempotent(c.endAt);
  }

  /** Every mask of the plan is well formed and all share one direction,
      "to top" exactly when flipped. */
  lemma PlanMasks(c: Config)
    ensures var plan := Plan(c);
      forall k :: 0 <= k < |plan| ==>
        WellFormedMask(plan[k].mask) && (plan[k].mask.dir == ToTop <==> c.flip)
  {
    var plan, total := Plan(c), LayerCount(c.layers);
    forall k | 0 <= k < |plan|
      ensures WellFormedMask(plan[k].mask)
    {
      if k < total {
        WeightStopsWellFormed(k, total, ClampPct(c.endAt), plan[k].mask.dir);
      } else {
        RampStopsWellFormed(ClampPct(c.endAt), plan[k].mask.dir);
      }
    }
  }

  /** `flip` changes only the direction of the masks: the plan for the other
      setting has the same slices, each with its mask direction replaced. */
  lemma FlipOnlyChangesDirection(c: Config, flip: bool)
    ensures var plan, plan' := Plan(c), Plan(c.(flip := flip));
      && |plan'| == |plan|
      && forall k :: 0 <= k < |plan| ==>
           plan'[k] == plan[k].(mask := plan[k].mask.(dir := GradientDir(flip)))
  {
  }

  /** The default properties: two fully opaque weighted slices with blurs 6
      and 12, and a tail at blur 12 opaque from 0%. */
  lemma DefaultScenario()
    ensures var plan := Plan(DefaultConfig);
      && |plan| == 3
      && plan[0] == Slice(1, 6.0, Mask(ToBottom, [Stop(Opaque, 0.0), Stop(Opaque, 100.0)]), true)
      && plan[1] == Slice(2, 12.0, Mask(ToBottom, [Stop(Opaque, 0.0), Stop(Opaque, 100.0)]), true)
      && plan[2] == Slice(3, 12.0, Mask(ToBottom, [Stop(Transparent, 0.0), Stop(Opaque, 0.0), Stop(Opaque, 0.001), Stop(Opaque, 100.0)]), false)
  {
  }

  /** layers=3, baseBlur=12, endAt=50: blurs 4, 8, 12, fade starts 11.25,
      22.5, 33.75, and a tail at blur 12 opaque from 50% and 50.001%. */
  lemma ThreeLayerScenario()
    ensures var plan := Plan(Config(3.0, 12.0, 50.0, "100%", false));
      && |plan| == 4
      && plan[0].blur == 4.0 && plan[1].blur == 8.0 && plan[2].blur == 12.0 && plan[3].blur == 12.0
      && plan[0].mask.stops[1].pos == 11.25
      && plan[1].mask.stops[1].pos == 22.5
      && plan[2].mask.stops[1].pos == 33.75
      && plan[3].mask.stops == [Stop(Transparent, 0.0), Stop(Opaque, 50.0), Stop(Opaque, 50.001), Stop(Opaque, 100.0)]
      && plan[3].mask.dir == ToBottom
  {
  }

  /** layers=1, baseBlur=0, endAt=0: one unblurred, fully opaque weighted
      slice and an unblurred tail opaque from 0%. */
  lemma SingleLayerScenario()
    ensures var plan := Plan(Config(1.0, 0.0, 0.0, "100%", false));
      && |plan| == 2
      && plan[0] == Slice(1, 0.0, Mask(ToBottom, [Stop(Opaque, 0.0), Stop(Opaque, 100.0)]), true)
      && plan[1] == Slice(2, 0.0, Mask(ToBottom, [Stop(Transparent, 0.0), Stop(Opaque, 0.0), Stop(Opaque, 0.001), Stop(Opaque, 100.0)]), false)
  {
  }

  /** `render` fails exactly when the layer count reaches the array length
      limit, and otherwise yields the plan. */
  lemma RenderOutcome(c: Config)
    ensures Render(c).Ok? <==> LayerCount(c.layers) < ArrayLengthLimit
    ensures Render(c).Ok? ==> Render(c).value == Plan(c)
  {
  }

  /** Out-of-range inputs degrade to the nearest valid ones: layers=0 acts as
      layers=1, a negative blur as 0, endAt=150 as 100. */
  lemma OutOfRangeScenario()
    ensures Plan(Config(0.0, -5.0, 150.0, "100%", true)) == Plan(Config(1.0, 0.0, 100.0, "100%", true))
  {
  }
}
