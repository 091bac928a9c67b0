/**
  What the decision function can and cannot make of the loop: verdicts that no round ever carries, and
  why the list of supported actions it is given does no harm.
  */
module LoopVerdicts {
  import opened Options
  import opened LoopDecision
  import opened AutonomousLoop

  /** The verdicts a round can carry. */
  predicate Produced(v: Verdict) {
    !v.Reject? && !v.CollectData? && !v.RequestAnnotation?
  }

  /**
    No round of any run is decided as reject, collect_data or request_annotation, so the loop's branches
    for the first and the last of them are never taken.
    */
  lemma {:induction false} VerdictsProduced(loop: Loop, l: Limits, round: nat, carried: set<string>, tried: set<string>)
    ensures var rs := loop.RunFrom(l, round, carried, tried);
      rs.Some? ==> forall r <- rs.value :: Produced(r.verdict)
    decreases l.maxRounds + 1 - round
  {
    hide Passing, Unique, Untried, SelectAction, Ids, TagsAt;
    var rs := loop.RunFrom(l, round, carried, tried);
    if rs.Some? && round <= l.maxRounds {
      var tags := TagsAt(l.extraTags, round) + carried + TagsAt(l.forcedTags, round);
      var eligible := Passing(l.filter, Unique(loop.retrieve(round, tags).value));
      var untried := Untried(eligible, tried);
      if untried != [] && l.Funded(round) {
        var r := loop.Executed(l, round, untried, Ids(eligible));
        assert Produced(r.0.verdict);
        if !IsStop(r.0.verdict) {
          VerdictsProduced(loop, l, round + 1, r.1, tried + {r.0.executed.value});
        }
      }
    }
  }

  // The list of supported actions

  /** The untried actions without the one that was executed. */
  function Remaining(untried: seq<Action>, chosen: Action): seq<Action> {
    if untried == [] then []
    else if untried[0].id == chosen.id then Remaining(untried[1..], chosen)
    else [untried[0]] + Remaining(untried[1..], chosen)
  }

  lemma {:induction false} NothingRemoved(actions: seq<Action>, chosen: Action)
    requires forall a <- actions :: a.id != chosen.id
    ensures Remaining(actions, chosen) == actions
  {
    if actions != [] {
      NothingRemoved(actions[1..], chosen);
    }
  }

  lemma {:induction false} OneRemoved(actions: seq<Action>, chosen: Action)
    requires DistinctIds(actions) && chosen in actions
    ensures |Remaining(actions, chosen)| == |actions| - 1
  {
    if actions[0].id == chosen.id {
      forall a | a in actions[1..] ensures a.id != chosen.id {
        var i :| 0 <= i < |actions[1..]| && actions[1..][i] == a;
        assert actions[0].id != actions[i + 1].id;
      }
      NothingRemoved(actions[1..], chosen);
    } else {
      assert chosen in actions[1..];
      OneRemoved(actions[1..], chosen);
    }
  }

  /** The executed action is passed on as still supported exactly when a paper action further back was chosen. */
  lemma ChosenStaysSupportedExactly(untried: seq<Action>)
    requires DistinctIds(untried) && untried != []
    ensures SelectAction(untried).id in Ids(untried[1..]) <==> !untried[0].paper && exists a <- untried :: a.paper
  {
    SelectsFirstPaper(untried);
    var chosen := SelectAction(untried);
    if !untried[0].paper && exists a <- untried :: a.paper {
      var i :| 0 <= i < |untried| && untried[i] == chosen && chosen.paper;
      assert Ids(untried[1..])[i - 1] == chosen.id;
    } else {
      assert chosen == untried[0];
      forall i | 0 <= i < |untried[1..]| ensures Ids(untried[1..])[i] != chosen.id {
        assert untried[0].id != untried[i + 1].id;
      }
    }
  }

  /**
    It does no harm: the decision is the one that the actions really remaining would give, because only
    whether anything remains counts.
    */
  lemma SupportedListIsHarmless(untried: seq<Action>, p: Profile, weights: Weights, goal: bool, config: EngineConfig)
    requires DistinctIds(untried) && untried != []
    ensures Decide(p, Ids(untried[1..]), weights, true, goal, config)
      == Decide(p, Ids(Remaining(untried, SelectAction(untried))), weights, true, goal, config)
  {
    SelectsFirstPaper(untried);
    OneRemoved(untried, SelectAction(untried));
  }

  /** The untried actions of a round always have distinct ids. */
  lemma {:induction false} UntriedIsDistinct(eligible: seq<Action>, tried: set<string>)
    requires DistinctIds(eligible)
    ensures DistinctIds(Untried(eligible, tried))
  {
    if eligible != [] {
      var n := |eligible| - 1;
      UntriedIsDistinct(eligible[..n], tried);
      UntriedMembers(eligible[..n], tried);
      var u := Untried(eligible[..n], tried);
      forall i | 0 <= i < |u| ensures u[i].id != eligible[n].id {
        assert u[i] in eligible[..n];
        var m :| 0 <= m < n && eligible[..n][m] == u[i];
        assert eligible[m].id != eligible[n].id;
      }
    }
  }

  /** So in a run every decision is made as if the remaining actions had been passed on. */
  lemma ExecutedAsIfRemaining(loop: Loop, l: Limits, round: nat, retrieved: seq<Action>, tried: set<string>)
    requires Untried(Passing(l.filter, Unique(retrieved)), tried) != []
    ensures var eligible := Passing(l.filter, Unique(retrieved));
      var untried := Untried(eligible, tried);
      var chosen := SelectAction(untried);
      loop.Executed(l, round, untried, Ids(eligible)).0.verdict
        == Decide(loop.runner(chosen, round), Ids(Remaining(untried, chosen)), loop.weights, true,
                  l.GoalMet(round), loop.config)
  {
    hide Decide, SelectAction;
    var eligible := Passing(l.filter, Unique(retrieved));
    var untried := Untried(eligible, tried);
    UniqueIsDistinct(retrieved);
    PassingIsDistinct(l.filter, Unique(retrieved));
    UntriedIsDistinct(eligible, tried);
    var profile := loop.runner(SelectAction(untried), round);
    SupportedListIsHarmless(untried, profile, loop.weights, l.GoalMet(round), loop.config);
  }

  // Which verdict, and when

  /** The profile lacks evidence that the configuration insists on. */
  predicate Lacking(p: Profile, config: EngineConfig) {
    p.incomplete && config.needCompleteEvidence
  }

  /** Something to go on with: an action, a positive score, or a better primary metric. */
  predicate Promising(p: Profile, supported: seq<string>, weights: Weights) {
    supported != [] || Score(p, weights) > 0.0 || PrimaryImprovement(p) > 0.0
  }

  /**
    The decision: a violated constraint rolls back; else lacking evidence is collected; else a met goal
    stops; else nothing promising stops; else a spent budget stops; else the score promotes or refines.
    */
  lemma DecidesInOrder(p: Profile, supported: seq<string>, weights: Weights, budget: bool, goal: bool,
                       config: EngineConfig)
    ensures var v := Decide(p, supported, weights, budget, goal, config);
      && (v == Rollback <==> p.violations != [])
      && (v == CollectEvidence <==> p.violations == [] && Lacking(p, config))
      && (v == StopGoalMet <==> p.violations == [] && !Lacking(p, config) && goal)
      && (v == StopExhausted <==>
            p.violations == [] && !Lacking(p, config) && !goal && !Promising(p, supported, weights))
      && (v == StopBudget <==>
            p.violations == [] && !Lacking(p, config) && !goal && Promising(p, supported, weights) && !budget)
      && (v == Promote <==>
            p.violations == [] && !Lacking(p, config) && !goal && Promising(p, supported, weights) && budget
            && Score(p, weights) > config.promoteMinimum)
      && (v == Refine <==>
            p.violations == [] && !Lacking(p, config) && !goal && Promising(p, supported, weights) && budget
            && Score(p, weights) <= config.promoteMinimum)
  {
    hide Score, PrimaryImprovement;
  }

  /** The goal has been met by this round. */
  predicate GoalReached(l: Limits, round: nat) {
    l.goalMetRound != None && round >= l.goalMetRound.value
  }

  predicate MayExecute(l: Limits, round: nat) {
    l.budget == None || round in l.budget.value
  }

  /** What the limits allow a round to be. */
  predicate WithinLimits(l: Limits, r: RoundRecord) {
    && (r.executed != None ==> MayExecute(l, r.index))
    && (r.verdict == StopGoalMet ==> r.executed != None && GoalReached(l, r.index))
    && (r.executed != None && GoalReached(l, r.index) ==>
          r.verdict == StopGoalMet || r.verdict == Rollback || r.verdict == CollectEvidence)
    && (r.executed == None <==> r.stop != None)
    && (r.executed == None ==> r.verdict == StopExhausted || (r.verdict == StopBudget && !MayExecute(l, r.index)))
  }

  lemma BusyWithinLimits(loop: Loop, l: Limits, round: nat, untried: seq<Action>, eligible: seq<string>)
    requires untried != [] && l.Funded(round)
    ensures WithinLimits(l, loop.Executed(l, round, untried, eligible).0)
  {
    hide SelectAction, Ids;
    var profile := loop.runner(SelectAction(untried), round);
    DecidesInOrder(profile, Ids(untried[1..]), loop.weights, true, l.GoalMet(round), loop.config);
    hide Decide;
  }

  lemma IdleWithinLimits(loop: Loop, l: Limits, round: nat, untried: seq<Action>, eligible: seq<string>)
    requires untried == [] || !l.Funded(round)
    ensures WithinLimits(l, loop.Idle(round, untried, eligible))
  {
  }

  /**
    In every round of every run: nothing is executed in a round without budget; a met goal is reported
    only where it is met, and from then on an executed round stops the run unless it rolls back or lacks
    evidence; and a round executes nothing only for want of untried actions or of budget.
    */
  lemma {:induction false} RunsWithinLimits(loop: Loop, l: Limits, round: nat, carried: set<string>, tried: set<string>)
    ensures var rs := loop.RunFrom(l, round, carried, tried);
      rs.Some? ==> forall r <- rs.value :: WithinLimits(l, r)
    decreases l.maxRounds + 1 - round
  {
    hide Passing, Unique, Untried, SelectAction, Ids, TagsAt, WithinLimits;
    var rs := loop.RunFrom(l, round, carried, tried);
    if rs.Some? && round <= l.maxRounds {
      var tags := TagsAt(l.extraTags, round) + carried + TagsAt(l.forcedTags, round);
      var eligible := Passing(l.filter, Unique(loop.retrieve(round, tags).value));
      var untried := Untried(eligible, tried);
      if untried != [] && l.Funded(round) {
        var r := loop.Executed(l, round, untried, Ids(eligible));
        BusyWithinLimits(loop, l, round, untried, Ids(eligible));
        if !IsStop(r.0.verdict) {
          RunsWithinLimits(loop, l, round + 1, r.1, tried + {r.0.executed.value});
        }
      } else {
        IdleWithinLimits(loop, l, round, untried, Ids(eligible));
      }
    }
  }

  /** How a run ends, in words. */
  lemma EndsForAReason(r: Report, maxRounds: nat)
    requires EndsProperly(r, maxRounds)
    ensures match r.verdict
      case StopGoalMet => r.reason == ObjectiveConfirmed
      case StopBudget => r.reason == BudgetExhausted
      case StopExhausted => r.reason == NoSupportedAction
      case v => v == Refine && r.reason == MaxRoundsReached && |r.rounds| == maxRounds
  {
  }

  // A single round

  /** The tags a round retrieves by: the caller's for the round, those passed on, and the forced ones. */
  ghost predicate RetrievesBy(l: Limits, round: nat, carried: set<string>, tags: set<string>) {
    forall tag :: tag in tags <==>
      || (round in l.extraTags && tag in l.extraTags[round])
      || tag in carried
      || (round in l.forcedTags && tag in l.forcedTags[round])
  }

  /** The action passes the filter and no earlier action has its id. */
  ghost predicate Usable(f: Filter, actions: seq<Action>, i: nat) {
    && i < |actions| && actions[i].id in f.ready && actions[i].id !in f.smokeOnly
    && forall j :: 0 <= j < i ==> actions[j].id != actions[i].id
  }

  lemma {:induction false} EligibleAreUsable(f: Filter, actions: seq<Action>, id: string)
    ensures id in Ids(Passing(f, Unique(actions))) <==> exists i: nat :: Usable(f, actions, i) && actions[i].id == id
  {
    UniqueIsDistinct(actions);
    PassingMembers(f, Unique(actions));
    hide Unique, Passing, IndexOf;
    var eligible := Passing(f, Unique(actions));
    if id in Ids(eligible) {
      var p :| 0 <= p < |eligible| && Ids(eligible)[p] == id;
      assert eligible[p] in eligible && FirstOfId(actions, eligible[p]);
      UsableFirst(f, actions, eligible[p]);
    }
    if i: nat :| Usable(f, actions, i) && actions[i].id == id {
      KeptById(f, actions, i);
    }
  }

  lemma UsableFirst(f: Filter, actions: seq<Action>, u: Action)
    requires FirstOfId(actions, u) && Passes(f, u.id)
    ensures Usable(f, actions, IndexOf(actions, u.id)) && actions[IndexOf(actions, u.id)].id == u.id
  {
    hide IndexOf;
    assert forall j :: 0 <= j < IndexOf(actions, u.id) ==> actions[j].id != u.id by {
      IndexIsFirst(actions, u.id);
    }
  }

  lemma IndexIsFirst(actions: seq<Action>, id: string)
    ensures forall j :: 0 <= j < IndexOf(actions, id) && j < |actions| ==> actions[j].id != id
  {
  }

  lemma KeptById(f: Filter, actions: seq<Action>, i: nat)
    requires Usable(f, actions, i)
    ensures actions[i].id in Ids(Passing(f, Unique(actions)))
  {
    UniqueIsDistinct(actions);
    PassingMembers(f, Unique(actions));
    hide Unique, Passing, IndexOf;
    var u := Unique(actions);
    var p :| 0 <= p < |u| && Ids(u)[p] == actions[i].id;
    assert u[p] in Passing(f, u);
    var q :| 0 <= q < |Passing(f, u)| && Passing(f, u)[q] == u[p];
    assert Ids(Passing(f, u))[q] == actions[i].id;
  }

  /** The first record of a run: what it retrieves by, what is eligible in it, and what it may execute. */
  lemma FirstRoundInWords(loop: Loop, l: Limits, round: nat, carried: set<string>, tried: set<string>,
                          tags: set<string>)
    requires round <= l.maxRounds && RetrievesBy(l, round, carried, tags)
    ensures loop.retrieve(round, tags) == None ==> loop.RunFrom(l, round, carried, tried) == None
    ensures loop.retrieve(round, tags) != None && loop.RunFrom(l, round, carried, tried) != None ==>
      var actions, rs := loop.retrieve(round, tags).value, loop.RunFrom(l, round, carried, tried).value;
      && rs != [] && rs[0].index == round
      && (forall id :: id in rs[0].eligible <==> exists i: nat :: Usable(l.filter, actions, i) && actions[i].id == id)
      && (rs[0].executed != None ==> rs[0].executed.value in rs[0].eligible && rs[0].executed.value !in tried)
      && (rs[0].executed == None && MayExecute(l, round) ==> forall id <- rs[0].eligible :: id in tried)
  {
    var own := TagsAt(l.extraTags, round) + carried + TagsAt(l.forcedTags, round);
    assert tags == own;
    if loop.retrieve(round, tags) != None {
      var actions := loop.retrieve(round, tags).value;
      var eligible := Passing(l.filter, Unique(actions));
      forall id ensures id in Ids(eligible) <==> exists i: nat :: Usable(l.filter, actions, i) && actions[i].id == id {
        EligibleAreUsable(l.filter, actions, id);
      }
      RoundPicks(eligible, tried);
    }
    hide Passing, Unique, Untried, SelectAction, Ids, Decide, Usable;
  }

  lemma RoundPicks(eligible: seq<Action>, tried: set<string>)
    ensures var untried := Untried(eligible, tried);
      if untried == [] then forall id <- Ids(eligible) :: id in tried
      else SelectAction(untried).id in Ids(eligible) && SelectAction(untried).id !in tried
  {
    UntriedMembers(eligible, tried);
    var untried := Untried(eligible, tried);
    if untried == [] {
      forall id | id in Ids(eligible) ensures id in tried {
        var i :| 0 <= i < |eligible| && Ids(eligible)[i] == id;
        assert eligible[i] in eligible;
      }
    } else {
      SelectsFirstPaper(untried);
      var i :| 0 <= i < |eligible| && eligible[i] == SelectAction(untried);
      assert Ids(eligible)[i] == SelectAction(untried).id;
    }
  }

  /** What an executed round passes on: the worst problem if it moves ahead, and what is left over. */
  lemma TagsPassedOn(loop: Loop, l: Limits, round: nat, untried: seq<Action>, eligible: seq<string>, tag: string)
    requires untried != []
    ensures var r := loop.Executed(l, round, untried, eligible);
      var profile := loop.runner(SelectAction(untried), round);
      tag in r.1 <==>
      || tag in profile.residualTags
      || ((r.0.verdict == Promote || r.0.verdict == Refine) && profile.worstTag == Some(tag))
  {
    hide SelectAction, Ids;
  }

  // The score

  /** An axis adds its own weight times its own value, and nothing else counts. */
  lemma {:induction false} SumOfOneAxis(deltas: seq<MetricDelta>, weights: Weights, axis: Axis, m: nat, n: nat)
    requires m < |AXES| && n <= |AXES| && AXES[m] == axis
    requires forall j :: 0 <= j < |AXES| && j != m ==> weights(AXES[j]) == 0.0
    ensures WeightedSum(deltas, weights, n) == if m < n then Contribution(deltas, weights, axis) else 0.0
  {
    hide FirstDelta, Sources, AxisValue;
    if n > 0 {
      SumOfOneAxis(deltas, weights, axis, m, n - 1);
    }
  }

  lemma SumDistributes(a: real, b: real, x: real)
    ensures (a + b) * x == a * x + b * x
  {
  }

  /** Scores add up with their weights. */
  lemma {:induction false} ScoreAdds(deltas: seq<MetricDelta>, v: Weights, w: Weights, u: Weights, n: nat)
    requires n <= |AXES| && forall axis :: u(axis) == v(axis) + w(axis)
    ensures WeightedSum(deltas, u, n) == WeightedSum(deltas, v, n) + WeightedSum(deltas, w, n)
  {
    hide FirstDelta, Sources, AxisValue;
    if n > 0 {
      ScoreAdds(deltas, v, w, u, n - 1);
      var d := FirstDelta(deltas, Sources(AXES[n - 1]));
      if d.Some? {
        SumDistributes(v(AXES[n - 1]), w(AXES[n - 1]), AxisValue(d.value));
      }
    }
  }

  lemma QuotientBack(x: real, y: real)
    requires y > 0.0
    ensures x / y * y == x
  {
  }

  /** The value of an axis is the improvement relative to the baseline's magnitude, or absolute without one. */
  lemma AxisInWords(d: MetricDelta)
    ensures d.baseline == 0.0 ==> AxisValue(d) == d.improvement
    ensures d.baseline > 0.0 ==> AxisValue(d) * d.baseline == d.improvement
    ensures d.baseline < 0.0 ==> AxisValue(d) * -d.baseline == d.improvement
  {
    if d.baseline > 0.0 {
      QuotientBack(d.improvement, d.baseline);
    } else if d.baseline < 0.0 {
      QuotientBack(d.improvement, -d.baseline);
    }
  }

  /** The names a metric may be recorded under for an axis, preferred first. */
  function NamesOf(axis: Axis): seq<string> {
    match axis
    case Accuracy => ["map50_95", "mAP50-95", "map50"]
    case Precision => ["precision"]
    case Recall => ["recall"]
    case ApSmall => ["ap_small"]
    case Latency => ["latency_ms"]
    case Params => ["params_m"]
    case Flops => ["flops_g"]
    case Memory => ["memory_mb"]
  }

  /** The first record of the first of these names that is recorded at all. */
  ghost predicate ReadFrom(deltas: seq<MetricDelta>, names: seq<string>, d: MetricDelta) {
    exists n, i :: 0 <= n < |names| && 0 <= i < |deltas| && IsReading(deltas, names, n, i) && deltas[i] == d
  }

  /** Record i is the first one under name n, and no earlier name has one. */
  ghost predicate IsReading(deltas: seq<MetricDelta>, names: seq<string>, n: nat, i: nat)
    requires n < |names| && i < |deltas|
  {
    && deltas[i].metric == names[n]
    && (forall j :: 0 <= j < i ==> deltas[j].metric != names[n])
    && (forall m, j :: 0 <= m < n && 0 <= j < |deltas| ==> deltas[j].metric != names[m])
  }

  /** Record i is the first one under this name. */
  ghost predicate FirstNamed(deltas: seq<MetricDelta>, name: string, i: nat) {
    i < |deltas| && deltas[i].metric == name && forall j :: 0 <= j < i ==> deltas[j].metric != name
  }

  lemma {:induction false} DeltaForIs(deltas: seq<MetricDelta>, name: string)
    ensures match DeltaFor(deltas, name)
      case None => forall j :: 0 <= j < |deltas| ==> deltas[j].metric != name
      case Some(d) => exists i: nat :: FirstNamed(deltas, name, i) && deltas[i] == d
  {
    if deltas != [] {
      DeltaForIs(deltas[1..], name);
      if deltas[0].metric != name {
        match DeltaFor(deltas[1..], name)
        case None =>
          forall j | 0 <= j < |deltas| ensures deltas[j].metric != name {
            assert j > 0 ==> deltas[j] == deltas[1..][j - 1];
          }
        case Some(d) =>
          var i: nat :| FirstNamed(deltas[1..], name, i) && deltas[1..][i] == d;
          forall j | 0 <= j < i + 1 ensures deltas[j].metric != name {
            assert j > 0 ==> deltas[j] == deltas[1..][j - 1];
          }
          assert FirstNamed(deltas, name, i + 1) && deltas[i + 1] == d;
      } else {
        assert FirstNamed(deltas, name, 0);
      }
    }
  }

  lemma {:induction false} FirstDeltaIs(deltas: seq<MetricDelta>, names: seq<string>)
    ensures match FirstDelta(deltas, names)
      case None => forall n, j :: 0 <= n < |names| && 0 <= j < |deltas| ==> deltas[j].metric != names[n]
      case Some(d) => ReadFrom(deltas, names, d)
  {
    hide DeltaFor;
    if names != [] {
      DeltaForIs(deltas, names[0]);
      if DeltaFor(deltas, names[0]).None? {
        FirstDeltaIs(deltas, names[1..]);
        match FirstDelta(deltas, names[1..])
        case None =>
          forall n, j | 0 <= n < |names| && 0 <= j < |deltas| ensures deltas[j].metric != names[n] {
            assert n > 0 ==> names[n] == names[1..][n - 1];
          }
        case Some(d) =>
          var n, i :| 0 <= n < |names[1..]| && 0 <= i < |deltas|
            && IsReading(deltas, names[1..], n, i) && deltas[i] == d;
          forall m, j | 0 <= m < n + 1 && 0 <= j < |deltas| ensures deltas[j].metric != names[m] {
            assert m > 0 ==> names[m] == names[1..][m - 1];
          }
          assert IsReading(deltas, names, n + 1, i);
      } else {
        var d := DeltaFor(deltas, names[0]).value;
        var i: nat :| FirstNamed(deltas, names[0], i) && deltas[i] == d;
        assert IsReading(deltas, names, 0, i);
      }
    }
  }

  /** An axis, and the primary metric, is read from the first of its names that was recorded. */
  lemma MeasuredByName(deltas: seq<MetricDelta>, axis: Axis)
    ensures match FirstDelta(deltas, Sources(axis))
      case None => forall d <- deltas :: d.metric !in NamesOf(axis)
      case Some(d) => ReadFrom(deltas, NamesOf(axis), d)
    ensures match FirstDelta(deltas, PRIMARY_SOURCES)
      case None => forall d <- deltas :: d.metric !in ["map50_95", "mAP50-95", "map50", "mAP50"]
      case Some(d) => ReadFrom(deltas, ["map50_95", "mAP50-95", "map50", "mAP50"], d)
  {
    hide FirstDelta, ReadFrom;
    FirstDeltaIs(deltas, Sources(axis));
    FirstDeltaIs(deltas, PRIMARY_SOURCES);
  }

  /** Every blocked action is named with the reason that applies to it, in order. */
  lemma {:induction false} BlockedInWords(f: Filter, actions: seq<Action>)
    ensures forall b <- Blocking(f, actions) ::
      || (b.0 !in f.ready && b.1 == NotImplementationReady)
      || (b.0 in f.ready && b.0 in f.smokeOnly && b.1 == SyntheticSmokeOnly)
    ensures |Blocking(f, actions)| + |Passing(f, actions)| == |actions|
  {
    if actions != [] {
      BlockedInWords(f, actions[..|actions| - 1]);
    }
  }
}
