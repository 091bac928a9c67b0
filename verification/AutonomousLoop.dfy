/**
  The bounded autonomous loop.  Retrieval of actions for the current problem tags and the experiment
  runner are inputs; retrieval may find no rule for the tags, which ends the run with an error.
  */
module AutonomousLoop {
  import opened Options
  import opened Collections
  import opened LoopDecision

  datatype Action = Action(id: string, paper: bool)

  datatype BlockReason = NotImplementationReady | SyntheticSmokeOnly

  datatype Filter = Filter(ready: seq<string>, smokeOnly: seq<string>)

  predicate Passes(f: Filter, id: string) {
    id in f.ready && id !in f.smokeOnly
  }

  function Ids(actions: seq<Action>): seq<string> {
    seq(|actions|, i requires 0 <= i < |actions| => actions[i].id)
  }

  /** The actions that pass, in order. */
  function Passing(f: Filter, actions: seq<Action>): seq<Action> {
    if actions == [] then []
    else
      var last := actions[|actions| - 1];
      Passing(f, actions[..|actions| - 1]) + (if Passes(f, last.id) then [last] else [])
  }

  /** The actions that do not, each with its reason. */
  function Blocking(f: Filter, actions: seq<Action>): seq<(string, BlockReason)> {
    if actions == [] then []
    else
      var last := actions[|actions| - 1];
      Blocking(f, actions[..|actions| - 1])
      + (if Passes(f, last.id) then []
         else [(last.id, if last.id in f.ready then SyntheticSmokeOnly else NotImplementationReady)])
  }

  method Evaluate(f: Filter, actions: seq<Action>) returns (eligible: seq<Action>, blocked: seq<(string, BlockReason)>)
    ensures eligible == Passing(f, actions) && blocked == Blocking(f, actions)
    ensures |eligible| + |blocked| == |actions|
  {
    eligible, blocked := [], [];
    var i := 0;
    while i < |actions|
      invariant 0 <= i <= |actions|
      invariant eligible == Passing(f, actions[..i]) && blocked == Blocking(f, actions[..i])
      invariant |eligible| + |blocked| == i
    {
      assert actions[..i + 1][..i] == actions[..i];
      var a := actions[i];
      if a.id !in f.ready {
        blocked := blocked + [(a.id, NotImplementationReady)];
      } else if a.id in f.smokeOnly {
        blocked := blocked + [(a.id, SyntheticSmokeOnly)];
      } else {
        eligible := eligible + [a];
      }
      i := i + 1;
    }
    assert actions[..i] == actions;
  }

  lemma {:induction false} PassingMembers(f: Filter, actions: seq<Action>)
    ensures forall a :: a in Passing(f, actions) <==> a in actions && Passes(f, a.id)
    ensures |Passing(f, actions)| <= |actions|
  {
    if actions != [] {
      PassingMembers(f, actions[..|actions| - 1]);
      assert actions == actions[..|actions| - 1] + [actions[|actions| - 1]];
    }
  }

  ghost predicate DistinctIds(actions: seq<Action>) {
    forall i, j :: 0 <= i < j < |actions| ==> actions[i].id != actions[j].id
  }

  /** Keep the first action of every id. */
  function Unique(actions: seq<Action>): seq<Action> {
    if actions == [] then []
    else
      var front, last := Unique(actions[..|actions| - 1]), actions[|actions| - 1];
      if last.id in Ids(front) then front else front + [last]
  }

  /** Where an id occurs first, or the number of actions. */
  function IndexOf(actions: seq<Action>, id: string): (r: nat)
    ensures r <= |actions| && forall j :: 0 <= j < r ==> actions[j].id != id
    ensures r < |actions| ==> actions[r].id == id
  {
    if actions == [] then 0
    else
      var n := |actions| - 1;
      var r := IndexOf(actions[..n], id);
      if r < n || actions[n].id == id then r else |actions|
  }

  /** u is the first action with its id. */
  predicate FirstOfId(actions: seq<Action>, u: Action) {
    IndexOf(actions, u.id) < |actions| && actions[IndexOf(actions, u.id)] == u
  }

  lemma {:induction false} UniqueKeepsIds(actions: seq<Action>)
    ensures forall id :: id in Ids(Unique(actions)) <==> IndexOf(actions, id) < |actions|
  {
    if actions != [] {
      var n := |actions| - 1;
      UniqueKeepsIds(actions[..n]);
      IdsAppend(Unique(actions[..n]), actions[n]);
    }
  }

  lemma {:induction false} UniqueKeepsFirsts(actions: seq<Action>)
    ensures forall p :: 0 <= p < |Unique(actions)| ==> FirstOfId(actions, Unique(actions)[p])
    ensures forall p, q :: 0 <= p < q < |Unique(actions)| ==>
      IndexOf(actions, Unique(actions)[p].id) < IndexOf(actions, Unique(actions)[q].id)
  {
    hide Ids;
    if actions != [] {
      var n := |actions| - 1;
      var front := Unique(actions[..n]);
      UniqueKeepsFirsts(actions[..n]);
      UniqueKeepsIds(actions[..n]);
      forall p | 0 <= p < |front|
        ensures FirstOfId(actions, front[p]) && IndexOf(actions, front[p].id) == IndexOf(actions[..n], front[p].id)
      {
        assert FirstOfId(actions[..n], front[p]);
      }
    }
  }

  /**
    Deduplication keeps every id, keeps the first action that carries it, and keeps the order in which
    the ids first occur; so what is kept has distinct ids.
    */
  lemma UniqueIsDistinct(actions: seq<Action>)
    ensures DistinctIds(Unique(actions))
    ensures forall u <- Unique(actions) :: FirstOfId(actions, u)
    ensures forall i :: 0 <= i < |actions| ==> actions[i].id in Ids(Unique(actions))
    ensures forall p, q :: 0 <= p < q < |Unique(actions)| ==>
      IndexOf(actions, Unique(actions)[p].id) < IndexOf(actions, Unique(actions)[q].id)
  {
    hide Ids, Unique;
    UniqueKeepsIds(actions);
    UniqueKeepsFirsts(actions);
  }

  lemma IdsAppend(actions: seq<Action>, a: Action)
    ensures forall id :: id in Ids(actions + [a]) <==> id in Ids(actions) || id == a.id
  {
    assert Ids(actions + [a]) == Ids(actions) + [a.id];
  }

  lemma {:induction false} PassingIsDistinct(f: Filter, actions: seq<Action>)
    requires DistinctIds(actions)
    ensures DistinctIds(Passing(f, actions))
  {
    if actions != [] {
      var front := actions[..|actions| - 1];
      PassingIsDistinct(f, front);
      PassingMembers(f, front);
      var p := Passing(f, front);
      forall i | 0 <= i < |p| ensures p[i].id != actions[|actions| - 1].id {
        assert p[i] in front;
        var m :| 0 <= m < |front| && front[m] == p[i];
        assert actions[m].id != actions[|actions| - 1].id;
      }
    }
  }

  /** The eligible actions not executed yet. */
  function Untried(eligible: seq<Action>, tried: set<string>): seq<Action> {
    if eligible == [] then []
    else
      var last := eligible[|eligible| - 1];
      Untried(eligible[..|eligible| - 1], tried) + (if last.id in tried then [] else [last])
  }

  lemma {:induction false} UntriedMembers(eligible: seq<Action>, tried: set<string>)
    ensures forall a :: a in Untried(eligible, tried) <==> a in eligible && a.id !in tried
  {
    if eligible != [] {
      UntriedMembers(eligible[..|eligible| - 1], tried);
    }
  }

  /** The first action of paper lineage. */
  function FirstPaper(actions: seq<Action>): Option<Action> {
    if actions == [] then None
    else if actions[0].paper then Some(actions[0])
    else FirstPaper(actions[1..])
  }

  /** Paper lineage first, then declaration order. */
  function SelectAction(untried: seq<Action>): Action
    requires untried != []
  {
    if FirstPaper(untried).Some? then FirstPaper(untried).value else untried[0]
  }

  lemma {:induction false} FirstPaperIs(actions: seq<Action>)
    ensures FirstPaper(actions).None? <==> forall a <- actions :: !a.paper
    ensures FirstPaper(actions).Some? ==> exists i :: (
      && 0 <= i < |actions| && Some(actions[i]) == FirstPaper(actions) && actions[i].paper
      && forall j :: 0 <= j < i ==> !actions[j].paper)
  {
    if actions != [] && !actions[0].paper {
      FirstPaperIs(actions[1..]);
      assert actions == [actions[0]] + actions[1..];
      if FirstPaper(actions[1..]).Some? {
        var i :| 0 <= i < |actions[1..]| && Some(actions[1..][i]) == FirstPaper(actions)
          && actions[1..][i].paper && forall j :: 0 <= j < i ==> !actions[1..][j].paper;
        assert actions[i + 1] == actions[1..][i];
        forall j | 0 <= j < i + 1 ensures !actions[j].paper {
          assert j > 0 ==> actions[j] == actions[1..][j - 1];
        }
      }
    }
  }

  /** The first paper action if there is one, the first action otherwise. */
  lemma SelectsFirstPaper(untried: seq<Action>)
    requires untried != []
    ensures SelectAction(untried) in untried
    ensures var a := SelectAction(untried);
      || (!a.paper && a == untried[0] && forall b <- untried :: !b.paper)
      || exists i :: 0 <= i < |untried| && untried[i] == a && a.paper && forall j :: 0 <= j < i ==> !untried[j].paper
  {
    FirstPaperIs(untried);
  }

  datatype StopReason = NoSupportedAction | ObjectiveConfirmed | BudgetExhausted | MaxRoundsReached

  datatype RoundRecord = RoundRecord(
    index: nat, verdict: Verdict, eligible: seq<string>, executed: Option<string>, stop: Option<StopReason>)

  datatype Report = Report(rounds: seq<RoundRecord>, outcomes: seq<(nat, string)>, verdict: Verdict, reason: StopReason)

  function StopReasonOf(v: Verdict): StopReason {
    match v
    case StopGoalMet => ObjectiveConfirmed
    case StopBudget => BudgetExhausted
    case _ => NoSupportedAction
  }

  // What the transcript of a run looks like

  predicate ExecutedBefore(rounds: seq<RoundRecord>, n: nat, id: string)
    requires n <= |rounds|
  {
    exists m :: 0 <= m < n && rounds[m].executed == Some(id)
  }

  /** Rounds are numbered from 1 and only the last one can carry a stop. */
  ghost predicate WellNumbered(rounds: seq<RoundRecord>) {
    && (forall n :: 0 <= n < |rounds| ==> rounds[n].index == n + 1)
    && (forall n :: 0 <= n < |rounds| - 1 ==> !IsStop(rounds[n].verdict))
  }

  /** What is executed passed the filter and was not executed before. */
  ghost predicate NewAndEligible(rounds: seq<RoundRecord>, f: Filter) {
    && (forall n :: 0 <= n < |rounds| && rounds[n].executed.Some? ==>
          rounds[n].executed.value in rounds[n].eligible && !ExecutedBefore(rounds, n, rounds[n].executed.value))
    && (forall n, id :: 0 <= n < |rounds| && id in rounds[n].eligible ==> Passes(f, id))
  }

  /** A round stops as exhausted without executing only if everything eligible has been executed. */
  ghost predicate HonestExhaustion(rounds: seq<RoundRecord>) {
    forall n :: 0 <= n < |rounds| && rounds[n].verdict.StopExhausted? ==>
      forall id <- rounds[n].eligible :: rounds[n].executed == Some(id) || ExecutedBefore(rounds, n, id)
  }

  /** A round without execution is a stop, and a budget stop never follows an execution. */
  ghost predicate IdleRoundsStop(rounds: seq<RoundRecord>, budget: Option<set<nat>>) {
    && (forall n :: 0 <= n < |rounds| && rounds[n].executed.None? ==>
          rounds[n].verdict.StopExhausted? || rounds[n].verdict.StopBudget?)
    && (forall n :: 0 <= n < |rounds| && rounds[n].verdict.StopBudget? ==>
          rounds[n].executed.None? && budget.Some? && rounds[n].index !in budget.value)
  }

  ghost predicate Sound(rounds: seq<RoundRecord>, f: Filter, budget: Option<set<nat>>) {
    WellNumbered(rounds) && NewAndEligible(rounds, f) && HonestExhaustion(rounds) && IdleRoundsStop(rounds, budget)
  }

  /** The executed (round, action) pairs of a transcript. */
  function Executions(rounds: seq<RoundRecord>): seq<(nat, string)> {
    if rounds == [] then []
    else
      var last := rounds[|rounds| - 1];
      Executions(rounds[..|rounds| - 1]) + (if last.executed.Some? then [(last.index, last.executed.value)] else [])
  }

  lemma {:induction false} ExtendSound(rounds: seq<RoundRecord>, r: RoundRecord, f: Filter, budget: Option<set<nat>>)
    requires Sound(rounds, f, budget)
    requires forall n :: 0 <= n < |rounds| ==> !IsStop(rounds[n].verdict)
    requires r.index == |rounds| + 1
    requires r.executed.Some? ==> r.executed.value in r.eligible && !ExecutedBefore(rounds, |rounds|, r.executed.value)
    requires forall id <- r.eligible :: Passes(f, id)
    requires r.verdict.StopExhausted? ==>
      forall id <- r.eligible :: r.executed == Some(id) || ExecutedBefore(rounds, |rounds|, id)
    requires r.executed.None? ==> r.verdict.StopExhausted? || r.verdict.StopBudget?
    requires r.verdict.StopBudget? ==> r.executed.None? && budget.Some? && r.index !in budget.value
    ensures Sound(rounds + [r], f, budget)
  {
    var rs := rounds + [r];
    forall n, id | 0 <= n <= |rounds| ensures ExecutedBefore(rs, n, id) == ExecutedBefore(rounds, n, id) {
      if m :| 0 <= m < n && rs[m].executed == Some(id) {
        assert rounds[m].executed == Some(id);
      }
      if m :| 0 <= m < n && rounds[m].executed == Some(id) {
        assert rs[m].executed == Some(id);
      }
    }
  }

  ghost predicate NoStopYet(rounds: seq<RoundRecord>) {
    forall n :: 0 <= n < |rounds| ==> !IsStop(rounds[n].verdict)
  }

  /** `tried` holds exactly the ids executed so far. */
  ghost predicate TriedIs(rounds: seq<RoundRecord>, tried: set<string>) {
    forall id :: id in tried <==> ExecutedBefore(rounds, |rounds|, id)
  }

  /** The report lists the executions and names the stop, or says that all rounds were used up. */
  ghost predicate EndsProperly(r: Report, maxRounds: nat) {
    && |r.rounds| <= maxRounds
    && r.outcomes == Executions(r.rounds)
    && (if r.rounds != [] && IsStop(r.rounds[|r.rounds| - 1].verdict) then
          r.verdict == r.rounds[|r.rounds| - 1].verdict && r.reason == StopReasonOf(r.verdict)
        else |r.rounds| == maxRounds && r.verdict == Refine && r.reason == MaxRoundsReached)
  }

  /** A round that executes nothing, for want of untried actions or of budget. */
  lemma {:induction false} IdleRound(rounds: seq<RoundRecord>, r: RoundRecord, f: Filter, budget: Option<set<nat>>,
                  eligible: seq<Action>, tried: set<string>)
    requires Sound(rounds, f, budget) && NoStopYet(rounds) && TriedIs(rounds, tried)
    requires r.index == |rounds| + 1 && r.eligible == Ids(eligible) && r.executed.None?
    requires forall id <- r.eligible :: Passes(f, id)
    requires r.verdict == if Untried(eligible, tried) == [] then StopExhausted else StopBudget
    requires r.verdict.StopBudget? ==> budget.Some? && r.index !in budget.value
    ensures Sound(rounds + [r], f, budget)
  {
    NothingUntried(rounds, eligible, tried, None);
    ExtendSound(rounds, r, f, budget);
  }

  /** A round that executes the selected action. */
  lemma {:induction false} BusyRound(rounds: seq<RoundRecord>, r: RoundRecord, f: Filter, budget: Option<set<nat>>,
                  eligible: seq<Action>, tried: set<string>)
    requires Sound(rounds, f, budget) && NoStopYet(rounds) && TriedIs(rounds, tried)
    requires var untried := Untried(eligible, tried);
      && untried != [] && r.executed == Some(SelectAction(untried).id)
      && (r.verdict.StopExhausted? ==> |untried| == 1)
    requires r.index == |rounds| + 1 && r.eligible == Ids(eligible) && !r.verdict.StopBudget?
    requires forall id <- r.eligible :: Passes(f, id)
    ensures Sound(rounds + [r], f, budget)
    ensures TriedIs(rounds + [r], tried + {r.executed.value})
  {
    var untried := Untried(eligible, tried);
    var spared := untried[0];
    ChosenIsNew(rounds, eligible, tried, untried);
    if r.verdict.StopExhausted? {
      NothingUntried(rounds, eligible, tried, Some(spared));
    }
    ExtendSound(rounds, r, f, budget);
    TriedGrows(rounds, r);
  }

  /** What the caller fixes for a run. */
  datatype Limits = Limits(
    maxRounds: nat,
    filter: Filter,
    goalMetRound: Option<nat>,
    budget: Option<set<nat>>,
    extraTags: map<nat, set<string>>,
    forcedTags: map<nat, set<string>>)
  {
    predicate GoalMet(round: nat) {
      goalMetRound.Some? && round >= goalMetRound.value
    }

    predicate Funded(round: nat) {
      budget.None? || round in budget.value
    }
  }

  class Loop {
    const retrieve: (nat, set<string>) -> Option<seq<Action>>
    const runner: (Action, nat) -> Profile
    const weights: Weights
    const config: EngineConfig

    constructor (retrieve: (nat, set<string>) -> Option<seq<Action>>, runner: (Action, nat) -> Profile,
                 weights: Weights, config: EngineConfig)
      ensures this.retrieve == retrieve && this.runner == runner && this.weights == weights && this.config == config
    {
      this.retrieve, this.runner, this.weights, this.config := retrieve, runner, weights, config;
    }

    // What a run is, as a function

    /** The tags a round passes on to the next one. */
    function CarriedTags(profile: Profile, verdict: Verdict): set<string> {
      if verdict.Reject? then {}
      else SteeringTags(profile, verdict) + if verdict.RequestAnnotation? then {"missing_labels"} else {}
    }

    /** A round that executes the selected action: its record and the tags it passes on. */
    function Executed(l: Limits, round: nat, untried: seq<Action>, eligible: seq<string>): (RoundRecord, set<string>)
      requires untried != []
    {
      var chosen := SelectAction(untried);
      var profile := runner(chosen, round);
      var verdict := Decide(profile, Ids(untried[1..]), weights, true, l.GoalMet(round), config);
      (RoundRecord(round, verdict, eligible, Some(chosen.id), None), CarriedTags(profile, verdict))
    }

    /** A round that executes nothing. */
    function Idle(round: nat, untried: seq<Action>, eligible: seq<string>): RoundRecord {
      var verdict := if untried == [] then StopExhausted else StopBudget;
      RoundRecord(round, verdict, eligible, None, Some(StopReasonOf(verdict)))
    }

    /** The records from a round on, or nothing when retrieval has no rule for some round's tags. */
    function RunFrom(l: Limits, round: nat, carried: set<string>, tried: set<string>): Option<seq<RoundRecord>>
      decreases l.maxRounds + 1 - round
    {
      if round > l.maxRounds then Some([])
      else
        match retrieve(round, TagsAt(l.extraTags, round) + carried + TagsAt(l.forcedTags, round))
        case None => None
        case Some(retrieved) =>
          var eligible := Passing(l.filter, Unique(retrieved));
          var untried := Untried(eligible, tried);
          if untried == [] || !l.Funded(round) then Some([Idle(round, untried, Ids(eligible))])
          else
            var r := Executed(l, round, untried, Ids(eligible));
            if IsStop(r.0.verdict) then Some([r.0])
            else Prepend([r.0], RunFrom(l, round + 1, r.1, tried + {r.0.executed.value}))
    }

    // The loop

    /** Execute the selected action of a round and decide what follows. */
    method ExecuteRound(l: Limits, round: nat, untried: seq<Action>, eligible: seq<string>)
      returns (record: RoundRecord, tags: set<string>)
      requires untried != []
      ensures (record, tags) == Executed(l, round, untried, eligible)
      ensures record.verdict.StopExhausted? ==> |untried| == 1
      ensures !record.verdict.StopBudget?
    {
      var chosen := SelectAction(untried);
      var profile := runner(chosen, round);
      var verdict := Decide(profile, Ids(untried[1..]), weights, true, l.GoalMet(round), config);
      record := RoundRecord(round, verdict, eligible, Some(chosen.id), None);
      tags := {};
      if !verdict.Reject? {
        tags := SteeringTags(profile, verdict);
        if verdict.RequestAnnotation? {
          tags := tags + {"missing_labels"};
        }
      }
      assert tags == CarriedTags(profile, verdict);
    }

    /** The eligible actions of a round and those of them still worth executing. */
    method Candidates(filter: Filter, retrieved: seq<Action>, spent: set<string>)
      returns (eligible: seq<Action>, untried: seq<Action>)
      ensures eligible == Passing(filter, Unique(retrieved)) && untried == Untried(eligible, spent)
      ensures forall id <- Ids(eligible) :: Passes(filter, id)
    {
      var blocked;
      eligible, blocked := Evaluate(filter, Unique(retrieved));
      untried := Untried(eligible, spent);
      PassingMembers(filter, Unique(retrieved));
      forall id | id in Ids(eligible) ensures Passes(filter, id) {
        var i :| 0 <= i < |eligible| && eligible[i].id == id;
        assert eligible[i] in eligible;
      }
    }

    /** One round, from retrieval to its record; nothing when retrieval has no rule for the tags. */
    method PlayRound(l: Limits, round: nat, tags: set<string>, spent: set<string>,
                     ghost rounds: seq<RoundRecord>, ghost carried: set<string>, ghost tried: set<string>)
      returns (record: Option<RoundRecord>, next: set<string>)
      requires round <= l.maxRounds && |rounds| == round - 1 && spent == tried
      requires tags == TagsAt(l.extraTags, round) + carried + TagsAt(l.forcedTags, round)
      requires Sound(rounds, l.filter, l.budget) && NoStopYet(rounds) && TriedIs(rounds, tried)
      ensures record.None? ==> RunFrom(l, round, carried, tried).None?
      ensures record.Some? && IsStop(record.value.verdict) ==> RunFrom(l, round, carried, tried) == Some([record.value])
      ensures record.Some? && !IsStop(record.value.verdict) ==>
        && record.value.executed.Some?
        && RunFrom(l, round, carried, tried) ==
          Prepend([record.value], RunFrom(l, round + 1, next, tried + {record.value.executed.value}))
        && TriedIs(rounds + [record.value], tried + {record.value.executed.value})
        && NoStopYet(rounds + [record.value])
      ensures record.Some? ==> Sound(rounds + [record.value], l.filter, l.budget)
      ensures record.Some? ==> record.value.index == round
    {
      var retrieved := retrieve(round, tags);
      if retrieved.None? {
        return None, {};
      }
      var eligible, untried := Candidates(l.filter, retrieved.value, spent);
      if untried == [] || !l.Funded(round) {
        var verdict := if untried == [] then StopExhausted else StopBudget;
        var idle := RoundRecord(round, verdict, Ids(eligible), None, Some(StopReasonOf(verdict)));
        IdleRound(rounds, idle, l.filter, l.budget, eligible, tried);
        return Some(idle), {};
      }
      var executed;
      executed, next := ExecuteRound(l, round, untried, Ids(eligible));
      BusyRound(rounds, executed, l.filter, l.budget, eligible, tried);
      record := Some(executed);
    }

    /** Append a record, and its execution to the outcomes. */
    method File(rounds0: seq<RoundRecord>, outcomes0: seq<(nat, string)>, record: RoundRecord)
      returns (rounds: seq<RoundRecord>, outcomes: seq<(nat, string)>)
      requires outcomes0 == Executions(rounds0)
      ensures rounds == rounds0 + [record] && outcomes == Executions(rounds)
    {
      rounds, outcomes := rounds0 + [record], outcomes0;
      ExecutionsAppend(rounds0, record);
      if record.executed.Some? {
        outcomes := outcomes + [(record.index, record.executed.value)];
      }
    }

    /** Add the tags a round passes on to those the caller gave for the next round. */
    method PassOn(ghost l: Limits, extra: map<nat, set<string>>, round: nat,
                  ghost carried: set<string>, next: set<string>)
      returns (r: map<nat, set<string>>)
      requires TagsMatch(l, extra, round, carried)
      ensures TagsMatch(l, r, round + 1, next)
    {
      r := extra;
      if next != {} {
        r := r[round + 1 := TagsAt(r, round + 1) + next];
      }
    }

    /**
      Run to a stopping decision.  The transcript is the specified one, it is sound, its outcomes are its
      executions, and it ends in a stop or after the last permitted round.  Nothing is returned exactly
      when retrieval has no rule for the tags of some round.
      */
    method Run(l: Limits) returns (report: Option<Report>)
      ensures report.Some? <==> RunFrom(l, 1, {}, {}).Some?
      ensures report.Some? ==> Some(report.value.rounds) == RunFrom(l, 1, {}, {})
      ensures report.Some? ==> Sound(report.value.rounds, l.filter, l.budget) && EndsProperly(report.value, l.maxRounds)
    {
      var rounds: seq<RoundRecord>, outcomes: seq<(nat, string)> := [], [];
      var tried, banned: set<string> := {}, {};
      var extra: map<nat, set<string>> := l.extraTags;
      var round: nat := 1;
      ghost var carried: set<string> := {};
      PrependNothing(RunFrom(l, 1, {}, {}));
      while round <= l.maxRounds
        invariant 1 <= round <= l.maxRounds + 1 && |rounds| == round - 1
        invariant Sound(rounds, l.filter, l.budget) && outcomes == Executions(rounds)
        invariant NoStopYet(rounds)
        invariant TriedIs(rounds, tried) && banned <= tried
        invariant TagsMatch(l, extra, round, carried)
        invariant RunFrom(l, 1, {}, {}) == Prepend(rounds, RunFrom(l, round, carried, tried))
      {
        assert tried + banned == tried;
        var played, next := PlayRound(l, round, TagsAt(extra, round) + TagsAt(l.forcedTags, round), tried + banned,
                                      rounds, carried, tried);
        if played.None? {
          return None;
        }
        var record := played.value;
        ghost var before := rounds;
        rounds, outcomes := File(rounds, outcomes, record);
        if IsStop(record.verdict) {
          EndsAtStop(before, record, outcomes, l.maxRounds);
          return Some(Report(rounds, outcomes, record.verdict, StopReasonOf(record.verdict)));
        }
        tried := tried + {record.executed.value};
        PrependTwice(before, [record], RunFrom(l, round + 1, next, tried));
        if record.verdict.Rollback? {
          banned := banned + {record.executed.value};
        }
        extra := PassOn(l, extra, round, carried, next);
        carried := next;
        round := round + 1;
      }
      PrependNoMore(rounds);
      EndsUsedUp(rounds, outcomes);
      return Some(Report(rounds, outcomes, Refine, MaxRoundsReached));
    }
  }

  lemma ExecutionsAppend(rounds: seq<RoundRecord>, r: RoundRecord)
    ensures Executions(rounds + [r])
      == Executions(rounds) + (if r.executed.Some? then [(r.index, r.executed.value)] else [])
  {
    assert (rounds + [r])[..|rounds|] == rounds;
  }

  /** From a round on, the collected tags are the caller's and those just carried over. */
  ghost predicate TagsMatch(l: Limits, extra: map<nat, set<string>>, round: nat, carried: set<string>) {
    && TagsAt(extra, round) == TagsAt(l.extraTags, round) + carried
    && forall m: nat :: m > round ==> TagsAt(extra, m) == TagsAt(l.extraTags, m)
  }

  function TagsAt(tags: map<nat, set<string>>, round: nat): set<string> {
    if round in tags then tags[round] else {}
  }

  function Prepend(first: seq<RoundRecord>, rest: Option<seq<RoundRecord>>): Option<seq<RoundRecord>> {
    match rest
    case None => None
    case Some(records) => Some(first + records)
  }

  lemma PrependNothing(rest: Option<seq<RoundRecord>>)
    ensures Prepend([], rest) == rest
  {
    if rest.Some? {
      assert [] + rest.value == rest.value;
    }
  }

  lemma EndsAtStop(rounds: seq<RoundRecord>, r: RoundRecord, outcomes: seq<(nat, string)>, maxRounds: nat)
    requires |rounds| < maxRounds && IsStop(r.verdict) && outcomes == Executions(rounds + [r])
    ensures EndsProperly(Report(rounds + [r], outcomes, r.verdict, StopReasonOf(r.verdict)), maxRounds)
  {
  }

  lemma EndsUsedUp(rounds: seq<RoundRecord>, outcomes: seq<(nat, string)>)
    requires NoStopYet(rounds) && outcomes == Executions(rounds)
    ensures EndsProperly(Report(rounds, outcomes, Refine, MaxRoundsReached), |rounds|)
  {
  }

  lemma PrependNoMore(rounds: seq<RoundRecord>)
    ensures Prepend(rounds, Some([])) == Some(rounds)
  {
    assert rounds + [] == rounds;
  }

  lemma PrependTwice(a: seq<RoundRecord>, b: seq<RoundRecord>, rest: Option<seq<RoundRecord>>)
    ensures Prepend(a, Prepend(b, rest)) == Prepend(a + b, rest)
  {
    if rest.Some? {
      AppendAssociates(a, b, rest.value);
    }
  }

  lemma TriedGrows(rounds: seq<RoundRecord>, r: RoundRecord)
    requires r.executed.Some?
    ensures forall id :: ExecutedBefore(rounds + [r], |rounds| + 1, id) <==>
      ExecutedBefore(rounds, |rounds|, id) || id == r.executed.value
  {
    var rs := rounds + [r];
    forall id
      ensures ExecutedBefore(rs, |rs|, id) <==> ExecutedBefore(rounds, |rounds|, id) || id == r.executed.value
    {
      if m :| 0 <= m < |rounds| && rounds[m].executed == Some(id) {
        assert rs[m].executed == Some(id);
      }
      if id == r.executed.value {
        assert rs[|rounds|].executed == Some(id);
      }
    }
  }

  /** With at most `spared` untried, everything else that is eligible was executed before. */
  lemma NothingUntried(rounds: seq<RoundRecord>, eligible: seq<Action>, tried: set<string>, spared: Option<Action>)
    requires forall id :: id in tried ==> ExecutedBefore(rounds, |rounds|, id)
    ensures (forall a <- Untried(eligible, tried) :: spared == Some(a)) ==>
      forall id <- Ids(eligible) :: (spared.Some? && id == spared.value.id) || ExecutedBefore(rounds, |rounds|, id)
  {
    UntriedMembers(eligible, tried);
    forall id | id in Ids(eligible) && forall a <- Untried(eligible, tried) :: spared == Some(a)
      ensures (spared.Some? && id == spared.value.id) || ExecutedBefore(rounds, |rounds|, id)
    {
      var i :| 0 <= i < |eligible| && eligible[i].id == id;
      assert eligible[i] in eligible;
    }
  }

  lemma ChosenIsNew(rounds: seq<RoundRecord>, eligible: seq<Action>, tried: set<string>, untried: seq<Action>)
    requires untried == Untried(eligible, tried) && untried != []
    requires forall id :: ExecutedBefore(rounds, |rounds|, id) ==> id in tried
    ensures SelectAction(untried).id in Ids(eligible)
    ensures !ExecutedBefore(rounds, |rounds|, SelectAction(untried).id)
  {
    UntriedMembers(eligible, tried);
    SelectsFirstPaper(untried);
    var a := SelectAction(untried);
    assert a in eligible;
    var i :| 0 <= i < |eligible| && eligible[i] == a;
    assert Ids(eligible)[i] == a.id;
  }

  // Consequences for every sound transcript

  /** No action is executed twice. */
  lemma ExecutedOnce(rounds: seq<RoundRecord>, f: Filter, budget: Option<set<nat>>, m: nat, n: nat)
    requires Sound(rounds, f, budget) && m < n < |rounds| && rounds[m].executed.Some?
    ensures rounds[n].executed != rounds[m].executed
  {
    if rounds[n].executed == rounds[m].executed {
      assert ExecutedBefore(rounds, n, rounds[n].executed.value);
    }
  }

  function ExecutedIds(rounds: seq<RoundRecord>): set<string> {
    set n | 0 <= n < |rounds| && rounds[n].executed.Some? :: rounds[n].executed.value
  }

  lemma {:induction false} ExecutionsCount(rounds: seq<RoundRecord>, f: Filter, budget: Option<set<nat>>)
    requires Sound(rounds, f, budget)
    ensures |Executions(rounds)| == |ExecutedIds(rounds)|
  {
    if rounds != [] {
      var front, last := rounds[..|rounds| - 1], rounds[|rounds| - 1];
      PrefixSound(rounds, f, budget);
      ExecutionsCount(front, f, budget);
      if last.executed.Some? {
        forall m | 0 <= m < |front| && front[m].executed.Some? ensures front[m].executed != last.executed {
          ExecutedOnce(rounds, f, budget, m, |rounds| - 1);
        }
        LastExecuted(rounds);
        assert ExecutedIds(rounds) == ExecutedIds(front) + {last.executed.value};
      } else {
        LastExecuted(rounds);
        assert ExecutedIds(rounds) == ExecutedIds(front);
      }
    }
  }

  lemma LastExecuted(rounds: seq<RoundRecord>)
    requires rounds != []
    ensures var front, last := rounds[..|rounds| - 1], rounds[|rounds| - 1];
      forall id :: id in ExecutedIds(rounds) <==> id in ExecutedIds(front) || last.executed == Some(id)
  {
    var front, last := rounds[..|rounds| - 1], rounds[|rounds| - 1];
    forall id ensures id in ExecutedIds(rounds) <==> id in ExecutedIds(front) || last.executed == Some(id) {
      if id in ExecutedIds(front) {
        var m :| 0 <= m < |front| && front[m].executed == Some(id);
        assert rounds[m].executed == Some(id);
      }
      if id in ExecutedIds(rounds) {
        var m :| 0 <= m < |rounds| && rounds[m].executed == Some(id);
        assert m < |front| ==> front[m].executed == Some(id);
      }
    }
  }

  lemma PrefixSound(rounds: seq<RoundRecord>, f: Filter, budget: Option<set<nat>>)
    requires Sound(rounds, f, budget) && rounds != []
    ensures Sound(rounds[..|rounds| - 1], f, budget)
  {
    var front := rounds[..|rounds| - 1];
    forall n, id | 0 <= n <= |front| ensures ExecutedBefore(front, n, id) == ExecutedBefore(rounds, n, id) {
      if m :| 0 <= m < n && rounds[m].executed == Some(id) {
        assert front[m].executed == Some(id);
      }
      if m :| 0 <= m < n && front[m].executed == Some(id) {
        assert rounds[m].executed == Some(id);
      }
    }
  }

  /** However many rounds are allowed, a run executes no more actions than the filter has ready. */
  lemma ExecutionsBounded(rounds: seq<RoundRecord>, f: Filter, budget: Option<set<nat>>)
    requires Sound(rounds, f, budget)
    ensures |Executions(rounds)| <= |set id | id in f.ready|
  {
    ExecutionsCount(rounds, f, budget);
    var ready := set id | id in f.ready;
    forall id | id in ExecutedIds(rounds) ensures id in ready {
      var n :| 0 <= n < |rounds| && rounds[n].executed == Some(id);
      assert id in rounds[n].eligible && Passes(f, id);
    }
    SubsetSize(ExecutedIds(rounds), ready);
  }
}
