/**
  The persistent ASHA study: rungs, trials with their observations, and training assignments.
  A trial is split into its `card`, which registration writes, and its progress up the ladder.
  */
module AshaTypes {
  import opened Options

  datatype Stage = Pilot3 | Pilot10 | FullSeed1 | FullConfirmation

  /** Position of a rung on the ladder. */
  function Rung(s: Stage): nat {
    match s
    case Pilot3 => 0
    case Pilot10 => 1
    case FullSeed1 => 2
    case FullConfirmation => 3
  }

  /** The two candidate_full stages, which need full-run authorization. */
  predicate IsFull(s: Stage) {
    s.FullSeed1? || s.FullConfirmation?
  }

  datatype TrialStatus =
    | Waiting | Running | PromotionPending | FullPendingConfirmation | ConfirmationPending
    | Eliminated | Confirmed | Failed | NeedsEvidence

  datatype AssignmentStatus = Issued | Running | Completed | Failed | Deferred

  datatype Readiness = PreRegistered | AshaEligible | OtherReadiness(name: string)

  type ReductionFactor = n: nat | 2 <= n witness 2

  datatype RungSpec = RungSpec(
    epochs: nat,
    fraction: real,
    reductionFactor: ReductionFactor,
    minimumCompleted: nat,
    minimumPromotions: nat,
    requirePositive: bool,
    noiseFloor: Option<real>,
    requireTargetImprovement: bool)

  datatype ConfigBase = Config(
    pilot3: RungSpec, pilot10: RungSpec, fullSeed1: RungSpec, fullConfirmation: RungSpec,
    seeds: seq<int>)
  {
    function Spec(s: Stage): RungSpec {
      match s
      case Pilot3 => pilot3
      case Pilot10 => pilot10
      case FullSeed1 => fullSeed1
      case FullConfirmation => fullConfirmation
    }
  }

  const DEFAULT_CONFIG: ConfigBase := Config(
    RungSpec(3, 0.1, 3, 3, 0, false, Some(-0.0030), false),
    RungSpec(10, 0.1, 2, 1, 0, true, None, true),
    RungSpec(100, 1.0, 2, 1, 0, true, None, false),
    RungSpec(100, 1.0, 2, 1, 0, true, None, false),
    [42, 43, 44])

  /** A study always configures at least three confirmation seeds. */
  type Config = c: ConfigBase | 3 <= |c.seeds| witness DEFAULT_CONFIG

  /** What one training run of a trial is about: a rung and a 1-based seed index. */
  datatype Key = Key(stage: Stage, seed: nat)

  /** The keys a study trains: seed 1 on the first three rungs, then seeds 2..S. */
  predicate Legal(cfg: Config, k: Key) {
    if k.stage.FullConfirmation? then 2 <= k.seed <= |cfg.seeds| else k.seed == 1
  }

  datatype Evidence = Evidence(
    nodeId: string,
    delta: Option<real>,
    verified: bool,
    // A paired experiment result is attached and is itself verified.
    pairedVerified: bool,
    improvedCount: nat,
    gate: Option<bool>,
    // The promotion rejection reasons joined with ";".
    rejection: string,
    complete: bool,
    failure: string)

  /** Imported evidence for one trial at one key. */
  datatype Observation = Observation(key: Key, evidence: Evidence)

  /** Why a trial left the ladder. */
  datatype Reason =
    | NoReason
    | Text(text: string)
    | BelowNoiseFloor
    | NonPositiveDelta(stage: Stage)
    | GateFailed(stage: Stage)
    | TargetNotImproved
    | IntervalNotPositive
    | NotConsistentlyPositive
    | ControlFailed(cause: string)
    | CircuitBreakerOpen(prior: nat)

  datatype Plan = Plan(planHash: string, protocol: string, baselineNode: string, baselineCandidate: string)

  datatype Card = Card(
    id: string,
    candidateId: string,
    // The node runs a real adapter-backed paper method.
    paper: bool,
    lossInjection: bool,
    fingerprint: string,
    readiness: Option<Readiness>,
    blockers: set<string>,
    paperIds: set<string>,
    methodIds: set<string>,
    mechanismIds: set<string>,
    requiredEvidence: set<string>,
    plan: Option<Plan>)

  datatype Trial = Trial(
    card: Card,
    status: TrialStatus,
    pending: Option<Stage>,
    observations: seq<Observation>,
    reason: Reason,
    deferredForPaper: bool)

  datatype Assignment = Assignment(
    id: string,
    trialId: string,
    candidateId: string,
    key: Key,
    seed: int,
    epochs: nat,
    fraction: real,
    status: AssignmentStatus,
    runId: Option<string>,
    nodeId: Option<string>)

  datatype Study = Study(cfg: Config, trials: seq<Trial>, assignments: seq<Assignment>)

  /** An assignment that is being worked on. */
  predicate Outstanding(st: AssignmentStatus) {
    st.Issued? || st.Running?
  }

  predicate Consumed(st: AssignmentStatus) {
    st.Completed? || st.Failed?
  }

  /** Where a trial stands when the allocation for `s` is put back. */
  function DeferredState(s: Stage): (r: (TrialStatus, Option<Stage>))
    ensures r.1 == Some(s)
  {
    match s
    case Pilot3 => (Waiting, Some(Pilot3))
    case Pilot10 => (PromotionPending, Some(Pilot10))
    case FullSeed1 => (FullPendingConfirmation, Some(FullSeed1))
    case FullConfirmation => (ConfirmationPending, Some(FullConfirmation))
  }

  // Observations of one trial

  /** The newest observation at a key. */
  function Lookup(obs: seq<Observation>, k: Key): Option<Evidence> {
    if obs == [] then None
    else if obs[|obs| - 1].key == k then Some(obs[|obs| - 1].evidence)
    else Lookup(obs[..|obs| - 1], k)
  }

  /** The observations at other keys, in order. */
  function Without(obs: seq<Observation>, k: Key): seq<Observation> {
    if obs == [] then []
    else if obs[|obs| - 1].key == k then Without(obs[..|obs| - 1], k)
    else Without(obs[..|obs| - 1], k) + [obs[|obs| - 1]]
  }

  /** A new report replaces whatever its key held. */
  function Record(obs: seq<Observation>, o: Observation): seq<Observation> {
    Without(obs, o.key) + [o]
  }

  ghost predicate UniqueKeys(obs: seq<Observation>) {
    forall i, j :: 0 <= i < j < |obs| ==> obs[i].key != obs[j].key
  }

  lemma {:induction false} LookupSome(obs: seq<Observation>, k: Key)
    ensures Lookup(obs, k).Some? <==> exists i :: 0 <= i < |obs| && obs[i].key == k
  {
    if obs != [] {
      LookupSome(obs[..|obs| - 1], k);
      if i :| 0 <= i < |obs| - 1 && obs[i].key == k {
        assert obs[..|obs| - 1][i].key == k;
      }
    }
  }

  lemma {:induction false} WithoutMembers(obs: seq<Observation>, k: Key)
    ensures forall i :: 0 <= i < |Without(obs, k)| ==> Without(obs, k)[i].key != k
    ensures forall o :: o in Without(obs, k) ==> o in obs
  {
    if obs != [] {
      WithoutMembers(obs[..|obs| - 1], k);
    }
  }

  lemma {:induction false} WithoutUnique(obs: seq<Observation>, k: Key)
    requires UniqueKeys(obs)
    ensures UniqueKeys(Without(obs, k))
  {
    if obs != [] {
      var front := obs[..|obs| - 1];
      WithoutUnique(front, k);
      WithoutMembers(front, k);
      var w := Without(front, k);
      forall i | 0 <= i < |w| ensures w[i].key != obs[|obs| - 1].key {
        assert w[i] in front;
      }
    }
  }

  lemma {:induction false} WithoutLookup(obs: seq<Observation>, k: Key, k': Key)
    requires k != k'
    ensures Lookup(Without(obs, k), k') == Lookup(obs, k')
  {
    if obs != [] {
      var front, last := obs[..|obs| - 1], obs[|obs| - 1];
      WithoutLookup(front, k, k');
      if last.key != k {
        LookupAppend(Without(front, k), last, k');
      }
    }
  }

  lemma LookupAppend(obs: seq<Observation>, o: Observation, k: Key)
    ensures Lookup(obs + [o], k) == if o.key == k then Some(o.evidence) else Lookup(obs, k)
  {
    assert (obs + [o])[..|obs|] == obs;
  }

  lemma {:induction false} WithoutAbsent(obs: seq<Observation>, k: Key)
    requires Lookup(obs, k).None?
    ensures Without(obs, k) == obs
  {
    if obs != [] {
      WithoutAbsent(obs[..|obs| - 1], k);
    }
  }

  lemma {:induction false} WithoutPresent(obs: seq<Observation>, k: Key)
    requires UniqueKeys(obs) && Lookup(obs, k).Some?
    ensures |Without(obs, k)| == |obs| - 1
  {
    var front, last := obs[..|obs| - 1], obs[|obs| - 1];
    if last.key == k {
      LookupSome(front, k);
      WithoutAbsent(front, k);
    } else {
      WithoutPresent(front, k);
    }
  }

  /** Recording fills one key and leaves every other key as it was. */
  lemma RecordLookup(obs: seq<Observation>, o: Observation, k: Key)
    ensures Lookup(Record(obs, o), k) == if o.key == k then Some(o.evidence) else Lookup(obs, k)
  {
    LookupAppend(Without(obs, o.key), o, k);
    if o.key != k {
      WithoutLookup(obs, o.key, k);
    }
  }

  /** Keys stay unique, and the list grows exactly when the key was free. */
  lemma RecordUnique(obs: seq<Observation>, o: Observation)
    requires UniqueKeys(obs)
    ensures UniqueKeys(Record(obs, o))
    ensures |Record(obs, o)| == |obs| + if Lookup(obs, o.key).None? then 1 else 0
  {
    WithoutMembers(obs, o.key);
    WithoutUnique(obs, o.key);
    if Lookup(obs, o.key).None? {
      WithoutAbsent(obs, o.key);
    } else {
      WithoutPresent(obs, o.key);
    }
  }
}
