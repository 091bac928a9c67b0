/**
  Registration: admission, the identity of a trial under evolving payloads, the adapter circuit
  breaker, and what stays fixed about a trial for the life of a scheduler.  Checks that rest on other
  modules (eligibility, matched-control assessment, fingerprint hashing) arrive as inputs.
  */
module Registration {
  import opened Options
  import opened AshaTypes
  import opened AssignmentIds
  import opened Promotion
  import opened AshaSpec
  import opened AshaBookkeeping

  const ADAPTER_CIRCUIT_BREAKER_LIMIT: nat := 2

  datatype NodeState = MissingState | PreRegisteredState | EligibleState | ShadowCompleteState | OtherState

  /** What registration reads off an experiment node. */
  datatype Node = Node(
    paperCandidate: bool,
    attributionAllowed: bool,
    inferenceOnly: bool,
    lossInjection: bool,
    shadow: bool,
    fingerprint: string,
    boundFingerprint: string,
    state: NodeState,
    hasBlockers: bool,
    planRequired: bool)

  datatype Request = Request(
    trialId: string,
    candidateId: string,
    node: Node,
    fingerprintOverride: Option<string>,
    readiness: Option<Readiness>,
    blockers: set<string>,
    eligible: bool,
    // The matched-control plan, when its assessment is ready.
    assessedPlan: Option<Plan>,
    paperIds: set<string>,
    methodIds: set<string>,
    mechanismIds: set<string>,
    requiredEvidence: set<string>)

  datatype RegisterError =
    | InferenceOnly | OverrideNotPaper | OverrideNotSha256 | OverrideNotBound
    | PaperNotEligible | ShadowReadiness | ShadowBlockers | PaperReadiness | PaperBlockers
    | TrialReadiness | EligibleWithBlockers | PlanNotReady | IdBound | PlanChanged

  predicate IsSha256(s: string) {
    |s| == 64 && forall c <- s :: c in "0123456789abcdef"
  }

  predicate PlanNeeded(node: Node) {
    (node.paperCandidate && !node.shadow) || node.planRequired
  }

  function OverrideError(q: Request): Option<RegisterError> {
    if q.fingerprintOverride.None? then None
    else if !q.node.paperCandidate then Some(OverrideNotPaper)
    else if !IsSha256(q.fingerprintOverride.value) then Some(OverrideNotSha256)
    else if q.node.boundFingerprint != q.fingerprintOverride.value then Some(OverrideNotBound)
    else None
  }

  function PaperError(q: Request): Option<RegisterError> {
    if !q.node.paperCandidate then None
    else if q.node.shadow then
      if q.node.state.EligibleState? || q.node.state.OtherState? then Some(ShadowReadiness)
      else if q.node.hasBlockers then Some(ShadowBlockers)
      else None
    else
      if !q.eligible then Some(PaperNotEligible)
      else if !q.node.state.EligibleState? then Some(PaperReadiness)
      else if q.node.hasBlockers then Some(PaperBlockers)
      else None
  }

  /** The readiness the trial is registered with. */
  function EffectiveReadiness(q: Request): Option<Readiness> {
    if q.readiness.Some? || !q.node.paperCandidate then q.readiness
    else if q.node.shadow then Some(PreRegistered) else Some(AshaEligible)
  }

  function AdmissionError(q: Request): Option<RegisterError> {
    if q.node.inferenceOnly then Some(InferenceOnly)
    else if OverrideError(q).Some? then OverrideError(q)
    else if PaperError(q).Some? then PaperError(q)
    else
      var readiness := EffectiveReadiness(q);
      if readiness.Some? && readiness != Some(AshaEligible) && !q.node.shadow then Some(TrialReadiness)
      else if readiness == Some(AshaEligible) && q.blockers != {} then Some(EligibleWithBlockers)
      else if PlanNeeded(q.node) && q.assessedPlan.None? then Some(PlanNotReady)
      else None
  }

  function PlanOf(q: Request): Option<Plan> {
    if PlanNeeded(q.node) then q.assessedPlan else None
  }

  function FingerprintOf(q: Request): string {
    if q.fingerprintOverride.Some? then q.fingerprintOverride.value else q.node.fingerprint
  }

  predicate IsPreRegistered(t: Trial) {
    t.card.readiness == Some(PreRegistered)
  }

  predicate Terminal(st: TrialStatus) {
    st.Failed? || st.Eliminated? || st.Confirmed?
  }

  function Prefix(s: string, n: nat): string {
    if |s| <= n then s else s[..n]
  }

  /** The id names a trial that keeps its own, different fingerprint. */
  predicate Rebinds(s: Study, q: Request) {
    var i := Find(s.trials, q.trialId);
    i.Some? && !IsPreRegistered(s.trials[i.value]) && s.trials[i.value].card.fingerprint != FingerprintOf(q)
  }

  /** A terminal trial releases its id: the evolved payload registers under a derived one. */
  function TargetId(s: Study, q: Request): string {
    if Rebinds(s, q) then q.trialId + ":" + Prefix(FingerprintOf(q), 12) else q.trialId
  }

  function Target(s: Study, q: Request): (r: Option<nat>)
    ensures r.Some? ==> r.value < |s.trials|
  {
    Find(s.trials, TargetId(s, q))
  }

  /** The first trial with this execution fingerprint. */
  function FindFingerprint(trials: seq<Trial>, fp: string): (r: Option<nat>)
    ensures r.Some? ==> r.value < |trials| && trials[r.value].card.fingerprint == fp
    ensures r.None? ==> forall i :: 0 <= i < |trials| ==> trials[i].card.fingerprint != fp
  {
    if trials == [] then None
    else
      var n := |trials| - 1;
      var r := FindFingerprint(trials[..n], fp);
      if r.Some? then r else if trials[n].card.fingerprint == fp then Some(n) else None
  }

  function Merged(t: Trial, q: Request): Trial {
    t.(card := t.card.(paperIds := t.card.paperIds + q.paperIds,
                       methodIds := t.card.methodIds + q.methodIds,
                       mechanismIds := t.card.mechanismIds + q.mechanismIds))
  }

  /** A reservation takes on the executable node it was made for. */
  function Resourced(t: Trial, q: Request): Trial {
    t.(card := t.card.(paper := q.node.paperCandidate && q.node.attributionAllowed,
                       lossInjection := q.node.lossInjection,
                       fingerprint := FingerprintOf(q)))
  }

  function Activated(t: Trial, q: Request): Trial {
    t.(card := t.card.(readiness := Some(AshaEligible), blockers := {},
                       plan := if PlanOf(q).Some? then PlanOf(q) else t.card.plan,
                       requiredEvidence := t.card.requiredEvidence + q.requiredEvidence),
       status := Waiting, pending := Some(Pilot3), reason := NoReason, deferredForPaper := false)
  }

  /** Another plan may only differ in labels, not in the control it is matched with. */
  predicate PlanConflict(t: Trial, plan: Option<Plan>) {
    && plan.Some? && t.card.plan.Some?
    && t.card.plan.value.planHash != plan.value.planHash
    && (|| t.card.plan.value.protocol != plan.value.protocol
        || t.card.plan.value.baselineNode != plan.value.baselineNode
        || t.card.plan.value.baselineCandidate != plan.value.baselineCandidate)
  }

  function Attached(t: Trial, plan: Option<Plan>): Trial {
    if plan.Some? && t.card.plan.None? then t.(card := t.card.(plan := plan)) else t
  }

  predicate StartsWithAdapter(s: string) {
    |s| >= 7 && s[..7] == "adapter"
  }

  /** The recorded reason text begins with "adapter". */
  predicate AdapterReason(r: Reason) {
    r.CircuitBreakerOpen? || (r.Text? && StartsWithAdapter(r.text))
  }

  predicate PriorFailure(t: Trial, other: Trial) {
    && other.card.candidateId == t.card.candidateId && other.card.id != t.card.id
    && other.status.Failed? && AdapterReason(other.reason)
  }

  function PriorFailures(trials: seq<Trial>, t: Trial): nat {
    if trials == [] then 0
    else
      PriorFailures(trials[..|trials| - 1], t) + (if PriorFailure(t, trials[|trials| - 1]) then 1 else 0)
  }

  /** A paper candidate whose adapter keeps failing is admitted as failed. */
  function Broken(trials: seq<Trial>, t: Trial): Trial {
    if t.status.Waiting? && t.card.paper && PriorFailures(trials, t) >= ADAPTER_CIRCUIT_BREAKER_LIMIT then
      t.(status := TrialStatus.Failed, pending := None, reason := CircuitBreakerOpen(PriorFailures(trials, t)))
    else t
  }

  function FreshTrial(id: string, q: Request): Trial {
    Trial(Card(id, q.candidateId, q.node.paperCandidate && q.node.attributionAllowed, q.node.lossInjection,
               FingerprintOf(q), EffectiveReadiness(q), q.blockers, q.paperIds, q.methodIds, q.mechanismIds,
               q.requiredEvidence, PlanOf(q)),
          Waiting, Some(Pilot3), [], NoReason, false)
  }

  /** Store a changed trial, then let the circuit breaker look at it. */
  function Settled(s: Study, i: nat, t: Trial): (r: (Study, nat))
    requires i < |s.trials|
    ensures |r.0.trials| == |s.trials| && r.1 == i
  {
    var trials := s.trials[i := t];
    (s.(trials := trials[i := Broken(trials, t)]), i)
  }

  /** A known identity registers again: a reservation is activated, others only gain a plan. */
  function Readmitted(t: Trial, q: Request, resource: bool): Trial {
    if IsPreRegistered(t) then Merged(Activated(if resource then Resourced(t, q) else t, q), q)
    else Merged(Attached(t, PlanOf(q)), q)
  }

  /** The record a registration falls on: by id first, and for paper candidates by fingerprint. */
  function KnownAs(s: Study, byId: Option<nat>, q: Request): Option<nat> {
    if byId.Some? || !q.node.paperCandidate then byId else FindFingerprint(s.trials, FingerprintOf(q))
  }

  /** Re-register the known record, or append a new one under the decided id. */
  function Enter(s: Study, id: string, byId: Option<nat>, q: Request): (r: Result<(Study, nat), RegisterError>)
    requires byId.Some? ==> byId.value < |s.trials|
    ensures r.Ok? ==> r.value.1 < |r.value.0.trials|
  {
    match KnownAs(s, byId, q)
    case Some(i) =>
      var t := s.trials[i];
      if byId.Some? && !IsPreRegistered(t) && t.card.fingerprint != FingerprintOf(q) then Err(IdBound)
      else if !IsPreRegistered(t) && PlanConflict(t, PlanOf(q)) then Err(PlanChanged)
      else Ok(Settled(s, i, Readmitted(t, q, byId.Some?)))
    case None =>
      var t := FreshTrial(id, q);
      Ok((s.(trials := s.trials + [Broken(s.trials + [t], t)]), |s.trials|))
  }

  function Register(s: Study, q: Request): (r: Result<(Study, nat), RegisterError>)
    ensures r.Ok? ==> r.value.1 < |r.value.0.trials|
  {
    if AdmissionError(q).Some? then Err(AdmissionError(q).value)
    else if Rebinds(s, q) && !Terminal(s.trials[Find(s.trials, q.trialId).value].status) then Err(IdBound)
    else Enter(s, TargetId(s, q), Target(s, q), q)
  }

  // pre_register_trial

  predicate MatchesReservation(t: Trial, q: Request) {
    t.card.id == q.trialId || t.card.fingerprint == q.node.fingerprint
  }

  function FindReservation(trials: seq<Trial>, q: Request): (r: Option<nat>)
    ensures r.Some? ==> r.value < |trials|
    ensures r.None? ==> forall i :: 0 <= i < |trials| ==> !MatchesReservation(trials[i], q)
  {
    if trials == [] then None
    else
      var n := |trials| - 1;
      var r := FindReservation(trials[..n], q);
      if r.Some? then r else if MatchesReservation(trials[n], q) then Some(n) else None
  }

  function Reserved(t: Trial, q: Request): Trial {
    if t.card.readiness == Some(AshaEligible) then t
    else
      t.(card := t.card.(readiness := Some(PreRegistered), blockers := q.blockers,
                         requiredEvidence := t.card.requiredEvidence + q.requiredEvidence),
         status := NeedsEvidence, pending := None, reason := NoReason, deferredForPaper := false)
  }

  function Reservation(q: Request): Trial {
    Trial(Card(q.trialId, q.candidateId, q.node.paperCandidate && q.node.attributionAllowed, q.node.lossInjection,
               q.node.fingerprint, Some(PreRegistered), q.blockers, q.paperIds, q.methodIds, q.mechanismIds,
               q.requiredEvidence, None),
          NeedsEvidence, None, [], NoReason, false)
  }

  function PreRegister(s: Study, q: Request): (r: Result<(Study, nat), RegisterError>)
    ensures r.Ok? ==> r.value.1 < |r.value.0.trials|
  {
    if q.node.inferenceOnly then Err(InferenceOnly)
    else
      match FindReservation(s.trials, q)
      case Some(i) => Ok((s.(trials := s.trials[i := Merged(Reserved(s.trials[i], q), q)]), i))
      case None => Ok((s.(trials := s.trials + [Reservation(q)]), |s.trials|))
  }

  // The bookkeeping invariant

  lemma ChangedTrialKeepsValid(s: Study, i: nat, t: Trial)
    requires Valid(s) && i < |s.trials|
    requires t.card.id == s.trials[i].card.id && t.observations == s.trials[i].observations
    requires PendingFits(t)
    requires t.status.Running? ==> s.trials[i].status.Running? && s.trials[i].pending == t.pending
    ensures Valid(s.(trials := s.trials[i := t]))
  {
    var r := s.(trials := s.trials[i := t]);
    forall m | 0 <= m < |s.trials| ensures TrialOk(r.assignments, r.trials[m]) {
      assert TrialOk(s.assignments, s.trials[m]);
    }
    RecordsKept(s.trials, r.trials, s.assignments, s.assignments);
  }

  lemma NewTrialKeepsValid(s: Study, t: Trial)
    requires Valid(s) && Find(s.trials, t.card.id).None?
    requires t.observations == [] && PendingFits(t) && !t.status.Running?
    ensures Valid(s.(trials := s.trials + [t]))
  {
    FindNone(s.trials, t.card.id);
    forall j | 0 <= j < |s.assignments| ensures KnownAssignment(s.trials + [t], s.assignments[j]) {
      assert KnownAssignment(s.trials, s.assignments[j]);
      assert (s.trials + [t])[..|s.trials|] == s.trials;
    }
  }

  lemma SettledKeepsValid(s: Study, i: nat, t: Trial)
    requires Valid(s) && i < |s.trials|
    requires t.card.id == s.trials[i].card.id && t.observations == s.trials[i].observations
    requires PendingFits(t)
    requires t.status.Running? ==> s.trials[i].status.Running? && s.trials[i].pending == t.pending
    ensures Valid(Settled(s, i, t).0)
  {
    var trials := s.trials[i := t];
    ChangedTrialKeepsValid(s, i, Broken(trials, t));
    assert trials[i := Broken(trials, t)] == s.trials[i := Broken(trials, t)];
  }

  lemma RegisterKeepsValid(s: Study, q: Request)
    requires Valid(s) && Register(s, q).Ok?
    ensures Valid(Register(s, q).value.0) && Register(s, q).value.0.assignments == s.assignments
  {
    var known := KnownAs(s, Target(s, q), q);
    if known.Some? {
      assert TrialOk(s.assignments, s.trials[known.value]);
      SettledKeepsValid(s, known.value, Readmitted(s.trials[known.value], q, Target(s, q).Some?));
    } else {
      var t := FreshTrial(TargetId(s, q), q);
      NewTrialKeepsValid(s, Broken(s.trials + [t], t));
    }
  }

  lemma PreRegisterKeepsValid(s: Study, q: Request)
    requires Valid(s) && PreRegister(s, q).Ok?
    ensures Valid(PreRegister(s, q).value.0) && PreRegister(s, q).value.0.assignments == s.assignments
  {
    match FindReservation(s.trials, q)
    case Some(i) =>
      assert TrialOk(s.assignments, s.trials[i]);
      ChangedTrialKeepsValid(s, i, Merged(Reserved(s.trials[i], q), q));
    case None =>
      FindNone(s.trials, q.trialId);
      forall i | 0 <= i < |s.trials| ensures s.trials[i].card.id != q.trialId {
        assert !MatchesReservation(s.trials[i], q);
      }
      NewTrialKeepsValid(s, Reservation(q));
  }

  // Identity

  /** Ids stay, an eligible trial keeps its fingerprint and readiness, provenance only grows. */
  predicate SameIdentity(a: Card, b: Card) {
    && a.id == b.id && a.candidateId == b.candidateId
    && (a.readiness == Some(AshaEligible) ==>
          b.readiness == a.readiness && b.fingerprint == a.fingerprint && b.paper == a.paper)
    && a.paperIds <= b.paperIds && a.methodIds <= b.methodIds && a.mechanismIds <= b.mechanismIds
  }

  ghost predicate KeepsIdentity(xs: seq<Trial>, ys: seq<Trial>) {
    |xs| <= |ys| && forall i :: 0 <= i < |xs| ==> SameIdentity(xs[i].card, ys[i].card)
  }

  lemma SettledKeepsIdentity(s: Study, i: nat, t: Trial)
    requires i < |s.trials| && SameIdentity(s.trials[i].card, t.card)
    ensures KeepsIdentity(s.trials, Settled(s, i, t).0.trials)
  {
  }

  lemma RegisterKeepsIdentity(s: Study, q: Request)
    requires Register(s, q).Ok?
    ensures KeepsIdentity(s.trials, Register(s, q).value.0.trials)
  {
    var known := KnownAs(s, Target(s, q), q);
    if known.Some? {
      SettledKeepsIdentity(s, known.value, Readmitted(s.trials[known.value], q, Target(s, q).Some?));
    }
  }

  lemma PreRegisterKeepsIdentity(s: Study, q: Request)
    requires PreRegister(s, q).Ok?
    ensures KeepsIdentity(s.trials, PreRegister(s, q).value.0.trials)
  {
  }

  // Fingerprints

  ghost predicate UniqueFingerprints(trials: seq<Trial>) {
    forall i, j :: 0 <= i < j < |trials| ==> trials[i].card.fingerprint != trials[j].card.fingerprint
  }

  /** Some trial other than `target` already carries the requested fingerprint. */
  predicate HeldElsewhere(s: Study, q: Request, target: Option<nat>) {
    exists j :: 0 <= j < |s.trials| && target != Some(j) && s.trials[j].card.fingerprint == FingerprintOf(q)
  }

  /** The two ways a registration gives one fingerprint to a second trial. */
  predicate Collides(s: Study, q: Request) {
    match Target(s, q)
    case Some(i) => IsPreRegistered(s.trials[i]) && HeldElsewhere(s, q, Some(i))
    case None => !q.node.paperCandidate && HeldElsewhere(s, q, None)
  }

  lemma ReplacedFingerprint(xs: seq<Trial>, i: nat, t: Trial)
    requires UniqueFingerprints(xs) && i < |xs|
    ensures UniqueFingerprints(xs[i := t]) <==>
      forall j :: 0 <= j < |xs| && j != i ==> xs[j].card.fingerprint != t.card.fingerprint
  {
    var ys := xs[i := t];
    if UniqueFingerprints(ys) {
      forall j | 0 <= j < |xs| && j != i ensures xs[j].card.fingerprint != t.card.fingerprint {
        if j < i {
          assert ys[j].card.fingerprint != ys[i].card.fingerprint;
        } else {
          assert ys[i].card.fingerprint != ys[j].card.fingerprint;
        }
      }
    }
  }

  lemma AppendedFingerprint(xs: seq<Trial>, t: Trial)
    requires UniqueFingerprints(xs)
    ensures UniqueFingerprints(xs + [t]) <==>
      forall j :: 0 <= j < |xs| ==> xs[j].card.fingerprint != t.card.fingerprint
  {
    var ys := xs + [t];
    if UniqueFingerprints(ys) {
      forall j | 0 <= j < |xs| ensures xs[j].card.fingerprint != t.card.fingerprint {
        assert ys[j].card.fingerprint != ys[|xs|].card.fingerprint;
      }
    }
  }

  /**
    One execution fingerprint names one trial only until a registration collides: a reservation
    refreshed to a fingerprint held elsewhere, or a native candidate registering a held one.
    */
  lemma FingerprintsStayUniqueExactly(s: Study, q: Request)
    requires UniqueFingerprints(s.trials) && Register(s, q).Ok?
    ensures UniqueFingerprints(Register(s, q).value.0.trials) <==> !Collides(s, q)
  {
    var r := Register(s, q).value;
    if r.1 < |s.trials| {
      assert r.0.trials == s.trials[r.1 := r.0.trials[r.1]];
      ReplacedFingerprint(s.trials, r.1, r.0.trials[r.1]);
      forall j | 0 <= j < |s.trials| && j != r.1
        ensures s.trials[j].card.fingerprint != s.trials[r.1].card.fingerprint
      {
        if j < r.1 {
          assert s.trials[j].card.fingerprint != s.trials[r.1].card.fingerprint;
        } else {
          assert s.trials[r.1].card.fingerprint != s.trials[j].card.fingerprint;
        }
      }
    } else {
      assert r.0.trials == s.trials + [r.0.trials[r.1]];
      AppendedFingerprint(s.trials, r.0.trials[r.1]);
    }
  }

  const NATIVE_NODE: Node := Node(false, true, false, false, false, "fp", "", MissingState, false, false)

  function NativeRequest(id: string): Request {
    Request(id, id, NATIVE_NODE, None, None, {}, false, None, {}, {}, {}, {})
  }

  /** Two native candidates with one payload become two trials with one fingerprint. */
  lemma NativeDuplicate(cfg: Config)
    ensures var s := Register(Study(cfg, [], []), NativeRequest("a"));
      s.Ok? && UniqueFingerprints(s.value.0.trials)
      && Register(s.value.0, NativeRequest("b")).Ok?
      && !UniqueFingerprints(Register(s.value.0, NativeRequest("b")).value.0.trials)
  {
    var s := Register(Study(cfg, [], []), NativeRequest("a")).value.0;
    assert s.trials == [FreshTrial("a", NativeRequest("a"))];
    assert "a" != "b";
    assert Find(s.trials, "b") == None by {
      FindNone(s.trials, "b");
    }
    assert Collides(s, NativeRequest("b")) by {
      assert s.trials[0].card.fingerprint == "fp";
    }
    FingerprintsStayUniqueExactly(s, NativeRequest("b"));
  }
}
