/** The Pareto score of a full delta profile and the decision it leads to. */
module LoopDecision {
  import opened Options
  import opened Reals

  datatype Axis = Accuracy | Precision | Recall | ApSmall | Latency | Params | Flops | Memory

  const AXES: seq<Axis> := [Accuracy, Precision, Recall, ApSmall, Latency, Params, Flops, Memory]

  /** The metric names an axis is read from, preferred first. */
  function Sources(axis: Axis): seq<string> {
    match axis
    case Accuracy => ["map50_95", "mAP50-95", "map50"]
    case Precision => ["precision"]
    case Recall => ["recall"]
    case ApSmall => ["ap_small"]
    case Latency => ["latency_ms"]
    case Params => ["params_m"]
    case Flops => ["flops_g"]
    case Memory => ["memory_mb"]
  }

  const PRIMARY_SOURCES: seq<string> := ["map50_95", "mAP50-95", "map50", "mAP50"]

  /** One metric's movement; a positive improvement is good whatever the metric's direction. */
  datatype MetricDelta = MetricDelta(metric: string, baseline: real, improvement: real)

  datatype Profile = Profile(
    deltas: seq<MetricDelta>,
    incomplete: bool,
    // The hard constraints that were violated, each with its observed value and limit.
    violations: seq<string>,
    worstTag: Option<string>,
    residualTags: set<string>)

  type Weights = Axis -> real

  /** The first delta recorded for a metric. */
  function DeltaFor(deltas: seq<MetricDelta>, metric: string): Option<MetricDelta> {
    if deltas == [] then None
    else if deltas[0].metric == metric then Some(deltas[0])
    else DeltaFor(deltas[1..], metric)
  }

  /** The delta of the first listed metric that has one. */
  function FirstDelta(deltas: seq<MetricDelta>, metrics: seq<string>): Option<MetricDelta> {
    if metrics == [] then None
    else
      var d := DeltaFor(deltas, metrics[0]);
      if d.Some? then d else FirstDelta(deltas, metrics[1..])
  }

  /** Relative improvement, or the absolute one when there is no baseline magnitude. */
  function AxisValue(d: MetricDelta): real {
    if d.baseline != 0.0 then d.improvement / Abs(d.baseline) else d.improvement
  }

  /** What an axis adds to the score: nothing when none of its metrics was measured. */
  function Contribution(deltas: seq<MetricDelta>, weights: Weights, axis: Axis): real {
    var d := FirstDelta(deltas, Sources(axis));
    if d.Some? then weights(axis) * AxisValue(d.value) else 0.0
  }

  /** The weighted contributions of the first n axes. */
  function WeightedSum(deltas: seq<MetricDelta>, weights: Weights, n: nat): real
    requires n <= |AXES|
  {
    if n == 0 then 0.0 else WeightedSum(deltas, weights, n - 1) + Contribution(deltas, weights, AXES[n - 1])
  }

  function Score(p: Profile, weights: Weights): real {
    WeightedSum(p.deltas, weights, |AXES|)
  }

  lemma NoAxes(deltas: seq<MetricDelta>, weights: Weights)
    ensures WeightedSum(deltas, weights, 0) == 0.0
  {
  }

  /** One more axis adds its weighted value, if it was measured. */
  lemma NextAxis(deltas: seq<MetricDelta>, weights: Weights, n: nat)
    requires n < |AXES|
    ensures var d := FirstDelta(deltas, Sources(AXES[n]));
      WeightedSum(deltas, weights, n + 1)
      == if d.Some? then WeightedSum(deltas, weights, n) + weights(AXES[n]) * AxisValue(d.value)
         else WeightedSum(deltas, weights, n)
  {
    hide FirstDelta, AxisValue;
  }

  /** Accumulate the score and the per-axis values in one pass over the axes. */
  method ParetoScore(p: Profile, weights: Weights)
    returns (total: real, perAxis: map<Axis, real>, violations: seq<string>, dominated: bool)
    ensures violations == p.violations && (dominated <==> exists v :: v in p.violations)
    ensures total == Score(p, weights)
    ensures forall axis :: axis in perAxis <==> FirstDelta(p.deltas, Sources(axis)).Some?
    ensures forall axis <- perAxis :: perAxis[axis] == AxisValue(FirstDelta(p.deltas, Sources(axis)).value)
  {
    hide FirstDelta, Sources, AxisValue, WeightedSum;
    NoAxes(p.deltas, weights);
    total, perAxis := 0.0, map[];
    var n := 0;
    while n < |AXES|
      invariant 0 <= n <= |AXES|
      invariant total == WeightedSum(p.deltas, weights, n)
      invariant forall axis :: axis in perAxis <==> axis in AXES[..n] && FirstDelta(p.deltas, Sources(axis)).Some?
      invariant forall axis <- perAxis :: perAxis[axis] == AxisValue(FirstDelta(p.deltas, Sources(axis)).value)
    {
      assert AXES[..n + 1] == AXES[..n] + [AXES[n]];
      NextAxis(p.deltas, weights, n);
      var d := FirstDelta(p.deltas, Sources(AXES[n]));
      if d.Some? {
        total := total + weights(AXES[n]) * AxisValue(d.value);
        perAxis := perAxis[AXES[n] := AxisValue(d.value)];
      }
      n := n + 1;
    }
    assert AXES[..n] == AXES;
    AxesAreAll();
    violations, dominated := p.violations, p.violations != [];
    assert dominated ==> p.violations[0] in p.violations;
  }

  lemma AxesAreAll()
    ensures forall axis: Axis :: axis in AXES
  {
    forall axis: Axis ensures axis in AXES {
      match axis
      case Accuracy => assert AXES[0] == axis;
      case Precision => assert AXES[1] == axis;
      case Recall => assert AXES[2] == axis;
      case ApSmall => assert AXES[3] == axis;
      case Latency => assert AXES[4] == axis;
      case Params => assert AXES[5] == axis;
      case Flops => assert AXES[6] == axis;
      case Memory => assert AXES[7] == axis;
    }
  }

  // What the score means

  lemma SignOfQuotient(x: real, y: real)
    requires y > 0.0
    ensures x / y > 0.0 <==> x > 0.0
  {
  }

  lemma AxisSign(d: MetricDelta)
    ensures AxisValue(d) > 0.0 <==> d.improvement > 0.0
  {
    if d.baseline != 0.0 {
      SignOfQuotient(d.improvement, Abs(d.baseline));
    }
  }

  lemma NoGain(w: real, x: real)
    requires w >= 0.0 && x <= 0.0
    ensures w * x <= 0.0
  {
  }

  /** A positive score needs at least one axis that improved. */
  lemma {:induction false} PositiveScoreImproves(deltas: seq<MetricDelta>, weights: Weights, n: nat)
    requires n <= |AXES| && forall axis :: weights(axis) >= 0.0
    requires WeightedSum(deltas, weights, n) > 0.0
    ensures exists m :: 0 <= m < n && Improved(deltas, AXES[m])
  {
    var d := FirstDelta(deltas, Sources(AXES[n - 1]));
    if d.Some? && d.value.improvement > 0.0 {
      assert Improved(deltas, AXES[n - 1]);
    } else {
      if d.Some? {
        AxisSign(d.value);
        NoGain(weights(AXES[n - 1]), AxisValue(d.value));
      }
      PositiveScoreImproves(deltas, weights, n - 1);
    }
  }

  predicate Improved(deltas: seq<MetricDelta>, axis: Axis) {
    FirstDelta(deltas, Sources(axis)).Some? && FirstDelta(deltas, Sources(axis)).value.improvement > 0.0
  }

  lemma ScaledQuotient(c: real, x: real, y: real, cx: real, cy: real)
    requires c > 0.0 && y > 0.0 && cx == c * x && cy == c * y
    ensures cy > 0.0 && cx / cy == x / y
  {
    var q := x / y;
    assert x == q * y;
    assert cx == q * cy;
  }

  lemma PositiveProduct(a: real, b: real)
    requires a > 0.0 && b > 0.0
    ensures a * b > 0.0
  {
  }

  lemma NonZeroProduct(a: real, b: real)
    requires a != 0.0 && b != 0.0
    ensures a * b != 0.0
  {
    PositiveProduct(Abs(a), Abs(b));
  }

  /**
    The axes are unit free exactly where there is a baseline magnitude: measuring a metric in another
    unit leaves its axis value alone if and only if the baseline or the improvement decides it.
    */
  lemma UnitFreeExactly(d: MetricDelta, c: real, baseline: real, improvement: real)
    requires c > 0.0 && c != 1.0
    requires baseline == c * d.baseline && improvement == c * d.improvement
    ensures AxisValue(MetricDelta(d.metric, baseline, improvement)) == AxisValue(d)
      <==> d.baseline != 0.0 || d.improvement == 0.0
  {
    if d.baseline > 0.0 {
      ScaledQuotient(c, d.improvement, d.baseline, improvement, baseline);
    } else if d.baseline < 0.0 {
      ScaledQuotient(c, d.improvement, -d.baseline, improvement, -baseline);
    } else if d.improvement != 0.0 {
      NonZeroProduct(c - 1.0, d.improvement);
      assert improvement - d.improvement == (c - 1.0) * d.improvement;
    }
  }

  // The decision

  datatype Verdict =
    | Promote | Reject | Refine | Rollback | CollectEvidence | CollectData | RequestAnnotation
    | StopExhausted | StopGoalMet | StopBudget

  predicate IsStop(v: Verdict) {
    v.StopExhausted? || v.StopGoalMet? || v.StopBudget?
  }

  datatype EngineConfig = EngineConfig(promoteMinimum: real, needCompleteEvidence: bool)

  function PrimaryImprovement(p: Profile): real {
    match FirstDelta(p.deltas, PRIMARY_SOURCES)
    case None => 0.0
    case Some(d) => d.improvement
  }

  function Decide(p: Profile, supported: seq<string>, weights: Weights, budget: bool, goal: bool,
                  config: EngineConfig): Verdict
  {
    if p.violations != [] then Rollback
    else if p.incomplete && config.needCompleteEvidence then CollectEvidence
    else if goal then StopGoalMet
    else if supported == [] && !(Score(p, weights) > 0.0 || PrimaryImprovement(p) > 0.0) then StopExhausted
    else if !budget then StopBudget
    else if Score(p, weights) > config.promoteMinimum then Promote
    else Refine
  }

  /** The tag steering the next round; only promotions and refinements carry one. */
  function SteeringTags(p: Profile, v: Verdict): set<string> {
    (if (v.Promote? || v.Refine?) && p.worstTag.Some? then {p.worstTag.value} else {}) + p.residualTags
  }

  /** A promotion violates nothing, has the evidence asked for, and improved at least one axis. */
  lemma PromotionIsEarned(p: Profile, supported: seq<string>, weights: Weights, budget: bool, goal: bool,
                          config: EngineConfig)
    requires (forall axis :: weights(axis) >= 0.0) && config.promoteMinimum >= 0.0
    requires Decide(p, supported, weights, budget, goal, config).Promote?
    ensures p.violations == [] && (config.needCompleteEvidence ==> !p.incomplete)
    ensures exists m :: 0 <= m < |AXES| && Improved(p.deltas, AXES[m])
  {
    PositiveScoreImproves(p.deltas, weights, |AXES|);
  }
}
