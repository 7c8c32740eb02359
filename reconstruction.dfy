/**
 * The decisions around surface reconstruction: which Poisson variant runs
 * (fixed octree depth or fixed cell width), and which vertices the density
 * pruning removes afterwards.
 */
module Reconstruction {
  import opened Common
  import opened Pixels

  /** The argument passed to `create_from_point_cloud_poisson`. */
  datatype PoissonMode = WidthMode(width: Option<real>) | DepthMode(depth: int)

  /**
   * `poisson_depth is None or poisson_depth < 0 and poisson_width > 0`,
   * evaluated as Python does: `and` binds tighter than `or`, both
   * short-circuit from the left, and comparing `None` with a number raises
   * TypeError.
   */
  function ChooseMode(depth: Option<int>, width: Option<real>): (r: Result<PoissonMode>)
    ensures r.Err? <==> depth.Some? && depth.value < 0 && width.None?
    ensures r.Err? ==> r.error == NoneComparison
    ensures r.Ok? ==> (r.value.WidthMode? <==> depth.None? || (depth.value < 0 && width.value > 0.0))
    ensures r.Ok? && r.value.WidthMode? ==> r.value.width == width
    ensures r.Ok? && r.value.DepthMode? ==> depth == Some(r.value.depth)
  {
    if depth.None? then Ok(WidthMode(width))
    else if depth.value >= 0 then Ok(DepthMode(depth.value))
    else if width.None? then Err(NoneComparison)
    else if width.value > 0.0 then Ok(WidthMode(width))
    else Ok(DepthMode(depth.value))
  }

  /** The mode choice on sample inputs. */
  lemma ModeExamples()
    ensures ChooseMode(None, Some(0.05)) == Ok(WidthMode(Some(0.05)))
    ensures ChooseMode(Some(-1), Some(0.05)) == Ok(WidthMode(Some(0.05)))
    ensures ChooseMode(Some(8), Some(0.05)) == Ok(DepthMode(8))
    ensures ChooseMode(Some(-1), Some(0.0)) == Ok(DepthMode(-1))
    ensures ChooseMode(None, None) == Ok(WidthMode(None))
  {
  }

  /**
   * What `create_from_point_cloud_poisson` accepts: its binding takes
   * `width` as a float, so `None` is a TypeError, and `depth` as an unsigned
   * size, so a negative depth is a TypeError as well.
   */
  predicate SolverAccepts(mode: PoissonMode) {
    match mode
    case WidthMode(w) => w.Some?
    case DepthMode(d) => d >= 0
  }

  /** Lines 196-206 up to the solver's argument check: the mode that reaches the solver, or why the call raises. */
  function SolverMode(depth: Option<int>, width: Option<real>): (r: Result<PoissonMode>)
    ensures r.Ok? <==> ChooseMode(depth, width).Ok? && SolverAccepts(ChooseMode(depth, width).value)
    ensures r.Ok? ==> r == ChooseMode(depth, width)
    ensures r.Err? ==> r.error == if ChooseMode(depth, width).Err? then NoneComparison else SolverArgument
  {
    var mode :- ChooseMode(depth, width);
    if SolverAccepts(mode) then Ok(mode) else Err(SolverArgument)
  }

  /**
   * The solver runs exactly when a width is given and either no depth is
   * given or a negative depth meets a positive width, or else a non-negative
   * depth is given.
   */
  lemma SolverModeCases(depth: Option<int>, width: Option<real>)
    ensures SolverMode(depth, width).Ok? <==>
      (width.Some? && (depth.None? || (depth.value < 0 && width.value > 0.0))) ||
      (depth.Some? && depth.value >= 0)
  {
  }

  /** Sample inputs on which the solver refuses what the mode choice hands it. */
  lemma SolverModeExamples()
    ensures SolverMode(None, None) == Err(SolverArgument)
    ensures SolverMode(Some(-1), Some(0.0)) == Err(SolverArgument)
    ensures SolverMode(Some(-1), None) == Err(NoneComparison)
    ensures SolverMode(Some(8), None) == Ok(DepthMode(8))
  {
  }

  /** `(poisson_depth is None or poisson_depth < 0) and poisson_width > 0`, the other way to group it. */
  predicate GroupedReadingSelectsWidth(depth: Option<int>, width: Option<real>) {
    (depth.None? || depth.value < 0) && width.Some? && width.value > 0.0
  }

  /**
   * The two groupings disagree exactly when no depth is given and the width
   * is not a positive number: the code as written then still asks for width mode.
   */
  lemma GroupingMatters(depth: Option<int>, width: Option<real>)
    requires ChooseMode(depth, width).Ok?
    ensures ChooseMode(depth, width).value.WidthMode? != GroupedReadingSelectsWidth(depth, width)
      <==> depth.None? && !(width.Some? && width.value > 0.0)
  {
  }

  /** `densities < threshold`: one entry per vertex, set where the density is strictly below. */
  function RemovalMask(densities: seq<real>, threshold: real): (mask: seq<bool>)
    ensures |mask| == |densities|
    ensures forall i :: 0 <= i < |densities| ==> (mask[i] <==> densities[i] < threshold)
  {
    LessThan(densities, threshold)
  }

  /** How many densities lie strictly below the threshold. */
  function CountBelow(densities: seq<real>, threshold: real): nat {
    if |densities| == 0 then 0
    else CountBelow(densities[..|densities| - 1], threshold) + (if densities[|densities| - 1] < threshold then 1 else 0)
  }

  /** The mask removes as many vertices as there are densities below the threshold, and keeps the rest. */
  lemma {:induction false} RemovalCount(densities: seq<real>, threshold: real)
    ensures multiset(RemovalMask(densities, threshold))[true] == CountBelow(densities, threshold)
    ensures multiset(RemovalMask(densities, threshold))[false] == |densities| - CountBelow(densities, threshold)
  {
    var n := |densities|;
    if n > 0 {
      var init := densities[..n - 1];
      RemovalCount(init, threshold);
      var m := RemovalMask(densities, threshold);
      assert m == RemovalMask(init, threshold) + [densities[n - 1] < threshold];
      assert multiset(m) == multiset(RemovalMask(init, threshold)) + multiset{densities[n - 1] < threshold};
    }
  }

  /** Some vertex is removed exactly when some density lies strictly below the threshold. */
  lemma {:induction false} RemovesSome(densities: seq<real>, threshold: real)
    ensures CountBelow(densities, threshold) > 0 <==> exists i :: 0 <= i < |densities| && densities[i] < threshold
  {
    var n := |densities|;
    if n > 0 {
      var init := densities[..n - 1];
      RemovesSome(init, threshold);
      if exists i :: 0 <= i < n - 1 && init[i] < threshold {
        var i :| 0 <= i < n - 1 && init[i] < threshold;
        assert densities[i] < threshold;
      }
      if exists i :: 0 <= i < n && densities[i] < threshold {
        var i :| 0 <= i < n && densities[i] < threshold;
        if i < n - 1 { assert init[i] < threshold; }
      }
    }
  }

  /**
   * The pruning step: `if poisson_min_density > 0` (TypeError when it is
   * None), then `densities < np.quantile(densities, q)`. The quantile itself
   * is a parameter; numpy refuses q above 1 and an empty array.
   */
  function PruneMask(minDensity: Option<real>, densities: seq<real>, quantile: (seq<real>, real) -> real)
    : (r: Result<Option<seq<bool>>>)
    ensures r.Err? <==> minDensity.None? || (minDensity.value > 0.0 && (minDensity.value > 1.0 || |densities| == 0))
    ensures r.Ok? && r.value.None? <==> minDensity.Some? && minDensity.value <= 0.0
    ensures r.Ok? && r.value.Some? ==>
      r.value.value == RemovalMask(densities, quantile(densities, minDensity.value))
  {
    if minDensity.None? then Err(NoneComparison)
    else if minDensity.value <= 0.0 then Ok(None)
    else if minDensity.value > 1.0 then Err(QuantileOutOfRange)
    else if |densities| == 0 then Err(EmptyDensities)
    else Ok(Some(RemovalMask(densities, quantile(densities, minDensity.value))))
  }

  /**
   * Whatever quantile in [min, max] is used, a mesh whose densities are all
   * equal loses no vertex, because the comparison is strict.
   */
  lemma EqualDensitiesKeepAll(densities: seq<real>, threshold: real)
    requires |densities| > 0 && forall i :: 0 <= i < |densities| ==> densities[i] == densities[0]
    requires threshold <= densities[0]
    ensures CountBelow(densities, threshold) == 0
  {
    RemovesSome(densities, threshold);
  }
}
