/**
  Registration in words: who is admitted, on which trial a registration falls, what becomes of that trial,
  and when the circuit breaker fires.
  */
module RegistrationOutcomes {
  import opened Options
  import opened AshaTypes
  import opened Promotion
  import opened AshaSpec
  import opened AshaBookkeeping
  import opened Registration

  // Admission

  /** The execution fingerprint: the one resolved for this registration, or the node's own. */
  function Execution(q: Request): string {
    match q.fingerprintOverride
    case Some(fp) => fp
    case None => q.node.fingerprint
  }

  predicate LowerHex(s: string) {
    |s| == 64 && forall i :: 0 <= i < |s| ==> '0' <= s[i] <= '9' || 'a' <= s[i] <= 'f'
  }

  /** A resolved fingerprint belongs to a paper candidate, is a SHA-256 digest, and is the one the node is bound to. */
  predicate GoodOverride(q: Request) {
    match q.fingerprintOverride
    case Some(fp) => q.node.paperCandidate && LowerHex(fp) && q.node.boundFingerprint == fp
    case None => true
  }

  /** A paper candidate is formally eligible, or it is a shadow that does not claim to be. */
  predicate GoodPaper(q: Request) {
    q.node.paperCandidate ==>
      && !q.node.hasBlockers
      && (if q.node.shadow then q.node.state != EligibleState && q.node.state != OtherState
          else q.eligible && q.node.state == EligibleState)
  }

  /** The readiness a trial is admitted with: as given, or what its kind of paper candidate implies. */
  function ReadinessOf(q: Request): Option<Readiness> {
    if q.readiness != None then q.readiness
    else if !q.node.paperCandidate then None
    else if q.node.shadow then Some(PreRegistered) else Some(AshaEligible)
  }

  /** Only shadows are admitted without being eligible, and nobody eligible has blockers. */
  predicate GoodReadiness(q: Request) {
    && (ReadinessOf(q) == None || ReadinessOf(q) == Some(AshaEligible) || q.node.shadow)
    && (ReadinessOf(q) == Some(AshaEligible) ==> q.blockers == {})
  }

  predicate NeedsPlan(q: Request) {
    q.node.planRequired || (q.node.paperCandidate && !q.node.shadow)
  }

  predicate Admitted(q: Request) {
    && !q.node.inferenceOnly && GoodOverride(q) && GoodPaper(q) && GoodReadiness(q)
    && (NeedsPlan(q) ==> q.assessedPlan != None)
  }

  lemma HexDigits(s: string)
    ensures LowerHex(s) <==> IsSha256(s)
  {
    forall c: char ensures c in "0123456789abcdef" <==> '0' <= c <= '9' || 'a' <= c <= 'f' {
      var digits := "0123456789abcdef";
      assert digits[0] == '0' && digits[1] == '1' && digits[2] == '2' && digits[3] == '3';
      assert digits[4] == '4' && digits[5] == '5' && digits[6] == '6' && digits[7] == '7';
      assert digits[8] == '8' && digits[9] == '9' && digits[10] == 'a' && digits[11] == 'b';
      assert digits[12] == 'c' && digits[13] == 'd' && digits[14] == 'e' && digits[15] == 'f';
    }
    if IsSha256(s) {
      forall i | 0 <= i < |s| ensures '0' <= s[i] <= '9' || 'a' <= s[i] <= 'f' {
        assert s[i] in s;
      }
    }
  }

  /** A registration is refused for admission exactly when one of these conditions fails, in any order. */
  lemma AdmittedExactly(q: Request)
    ensures AdmissionError(q).None? <==> Admitted(q)
    ensures PlanOf(q) == if NeedsPlan(q) then q.assessedPlan else None
    ensures FingerprintOf(q) == Execution(q) && EffectiveReadiness(q) == ReadinessOf(q)
  {
    if q.fingerprintOverride.Some? {
      HexDigits(q.fingerprintOverride.value);
    }
    hide LowerHex, IsSha256;
  }

  // The circuit breaker

  /** The trial failed in its adapter, or because others had. */
  predicate FailedInAdapter(t: Trial) {
    t.status == TrialStatus.Failed &&
    match t.reason
    case CircuitBreakerOpen(_) => true
    case Text(text) => |text| >= 7 && text[..7] == "adapter"
    case _ => false
  }

  /** The other trials of the candidate that failed in their adapter. */
  function AdapterFailures(xs: seq<Trial>, candidateId: string, id: string): set<nat> {
    set i | 0 <= i < |xs| && xs[i].card.candidateId == candidateId && xs[i].card.id != id && FailedInAdapter(xs[i])
  }

  lemma PriorIsAdapterFailure(t: Trial, x: Trial)
    ensures PriorFailure(t, x) <==>
      x.card.candidateId == t.card.candidateId && x.card.id != t.card.id && FailedInAdapter(x)
  {
  }

  lemma {:induction false} PriorFailuresAreSet(xs: seq<Trial>, t: Trial)
    ensures PriorFailures(xs, t) == |AdapterFailures(xs, t.card.candidateId, t.card.id)|
  {
    hide FailedInAdapter, PriorFailure;
    var now := AdapterFailures(xs, t.card.candidateId, t.card.id);
    if xs == [] {
      assert now == {};
    } else {
      var n := |xs| - 1;
      PriorFailuresAreSet(xs[..n], t);
      PriorIsAdapterFailure(t, xs[n]);
      var before := AdapterFailures(xs[..n], t.card.candidateId, t.card.id);
      assert now == if PriorFailure(t, xs[n]) then before + {n} else before;
    }
  }

  /** Two earlier adapter failures of its candidate admit a waiting paper trial as failed. */
  predicate AfterBreaker(xs: seq<Trial>, t: Trial, u: Trial) {
    var failures := |AdapterFailures(xs, t.card.candidateId, t.card.id)|;
    u == if t.status == TrialStatus.Waiting && t.card.paper && failures >= 2 then
           t.(status := TrialStatus.Failed, pending := None, reason := CircuitBreakerOpen(failures))
         else t
  }

  lemma BreakerInWords(xs: seq<Trial>, t: Trial)
    ensures AfterBreaker(xs, t, Broken(xs, t))
  {
    PriorFailuresAreSet(xs, t);
    hide AdapterFailures, PriorFailures;
  }

  /** A trial's own entry never counts against it. */
  lemma OwnEntryIgnored(xs: seq<Trial>, i: nat, t: Trial)
    requires i < |xs| && xs[i].card.id == t.card.id
    ensures AdapterFailures(xs[i := t], t.card.candidateId, t.card.id)
      == AdapterFailures(xs, t.card.candidateId, t.card.id)
  {
    hide FailedInAdapter;
  }

  lemma NewEntryIgnored(xs: seq<Trial>, t: Trial)
    ensures AdapterFailures(xs + [t], t.card.candidateId, t.card.id)
      == AdapterFailures(xs, t.card.candidateId, t.card.id)
  {
    hide FailedInAdapter;
  }

  // Identity

  predicate ReservedTrial(t: Trial) {
    t.card.readiness == Some(PreRegistered)
  }

  predicate Closed(t: Trial) {
    t.status == TrialStatus.Failed || t.status == Eliminated || t.status == Confirmed
  }

  /** The trial keeps an execution other than the one that registers. */
  predicate KeepsOther(t: Trial, q: Request) {
    !ReservedTrial(t) && t.card.fingerprint != Execution(q)
  }

  /** The id for a payload that evolved after its trial had closed. */
  function EvolvedId(q: Request): string {
    q.trialId + ":" + (if |Execution(q)| > 12 then Execution(q)[..12] else Execution(q))
  }

  ghost predicate HeldBy(s: Study, id: string, i: nat) {
    i < |s.trials| && s.trials[i].card.id == id
  }

  ghost predicate Unheld(s: Study, id: string) {
    forall i :: 0 <= i < |s.trials| ==> s.trials[i].card.id != id
  }

  /** The id the registration ends up with. */
  ghost predicate Settles(s: Study, q: Request, id: string) {
    || (id == q.trialId && forall i: nat :: HeldBy(s, id, i) ==> !KeepsOther(s.trials[i], q))
    || (id == EvolvedId(q) && exists i: nat ::
          HeldBy(s, q.trialId, i) && KeepsOther(s.trials[i], q) && Closed(s.trials[i]))
  }

  /** The first trial with the registering execution. */
  ghost predicate FirstWith(s: Study, fp: string, i: nat) {
    && i < |s.trials| && s.trials[i].card.fingerprint == fp
    && forall j :: 0 <= j < i ==> s.trials[j].card.fingerprint != fp
  }

  /** Another control than the trial is matched with. */
  predicate AnotherControl(t: Trial, plan: Option<Plan>) {
    && plan != None && t.card.plan != None
    && plan.value.planHash != t.card.plan.value.planHash
    && (|| plan.value.protocol != t.card.plan.value.protocol
        || plan.value.baselineNode != t.card.plan.value.baselineNode
        || plan.value.baselineCandidate != t.card.plan.value.baselineCandidate)
  }

  function PlanGiven(q: Request): Option<Plan> {
    if NeedsPlan(q) then q.assessedPlan else None
  }

  // What becomes of the trial

  function Joined(card: Card, q: Request): Card {
    card.(paperIds := card.paperIds + q.paperIds, methodIds := card.methodIds + q.methodIds,
          mechanismIds := card.mechanismIds + q.mechanismIds)
  }

  /** A known trial gains provenance, and a plan if it has none. */
  function Known(t: Trial, q: Request): Trial {
    t.(card := Joined(t.card, q).(plan := if t.card.plan == None then PlanGiven(q) else t.card.plan))
  }

  /**
    A reservation is queued for pilot_3 as eligible, without blockers and with its evidence kept; found by
    its id, it also takes on the kind and the execution of the node that registers.
    */
  function Queued(t: Trial, q: Request, byId: bool): Trial {
    var card := Joined(t.card, q).(
      readiness := Some(AshaEligible), blockers := {},
      requiredEvidence := t.card.requiredEvidence + q.requiredEvidence,
      plan := if PlanGiven(q) == None then t.card.plan else PlanGiven(q));
    Trial(if byId then card.(paper := q.node.paperCandidate && q.node.attributionAllowed,
                             lossInjection := q.node.lossInjection, fingerprint := Execution(q))
          else card,
          TrialStatus.Waiting, Some(Pilot3), t.observations, NoReason, false)
  }

  /** A new trial: queued for pilot_3 with nothing known about it. */
  function Fresh(id: string, q: Request): Trial {
    Trial(Card(id, q.candidateId, q.node.paperCandidate && q.node.attributionAllowed, q.node.lossInjection,
               Execution(q), ReadinessOf(q), q.blockers, q.paperIds, q.methodIds, q.mechanismIds,
               q.requiredEvidence, PlanGiven(q)),
          TrialStatus.Waiting, Some(Pilot3), [], NoReason, false)
  }

  /** Trial i has become what t is after the circuit breaker, and nothing else changed. */
  ghost predicate Becomes(s: Study, i: nat, t: Trial, r: Result<(Study, nat), RegisterError>)
    requires i < |s.trials|
  {
    && r.Ok? && r.value.1 == i && r.value.0.cfg == s.cfg && r.value.0.assignments == s.assignments
    && |r.value.0.trials| == |s.trials| && AfterBreaker(s.trials, t, r.value.0.trials[i])
    && forall j :: 0 <= j < |s.trials| && j != i ==> r.value.0.trials[j] == s.trials[j]
  }

  ghost predicate Appends(s: Study, t: Trial, r: Result<(Study, nat), RegisterError>) {
    && r.Ok? && r.value.1 == |s.trials| && r.value.0.cfg == s.cfg && r.value.0.assignments == s.assignments
    && |r.value.0.trials| == |s.trials| + 1 && AfterBreaker(s.trials, t, r.value.0.trials[|s.trials|])
    && forall j :: 0 <= j < |s.trials| ==> r.value.0.trials[j] == s.trials[j]
  }

  lemma ReadmittedIs(t: Trial, q: Request, byId: bool)
    ensures PlanOf(q) == PlanGiven(q) && FingerprintOf(q) == Execution(q)
    ensures Readmitted(t, q, byId) == if ReservedTrial(t) then Queued(t, q, byId) else Known(t, q)
    ensures PlanConflict(t, PlanOf(q)) <==> AnotherControl(t, PlanGiven(q))
  {
  }

  lemma SettledBecomes(s: Study, i: nat, t: Trial)
    requires i < |s.trials| && s.trials[i].card.id == t.card.id
    ensures Becomes(s, i, t, Ok(Settled(s, i, t)))
  {
    hide AdapterFailures, PriorFailures;
    BreakerInWords(s.trials[i := t], t);
    OwnEntryIgnored(s.trials, i, t);
  }

  lemma FindHeld(s: Study, id: string)
    requires Valid(s)
    ensures forall i: nat :: HeldBy(s, id, i) <==> Find(s.trials, id) == Some(i)
  {
    forall i: nat | HeldBy(s, id, i) ensures Find(s.trials, id) == Some(i) {
      FindFirst(s.trials, i);
    }
  }

  /** The id a registration settles on is the one it is entered under. */
  lemma EntersUnder(s: Study, q: Request, id: string)
    requires Valid(s) && Admitted(q) && Settles(s, q, id)
    ensures Register(s, q) == Enter(s, id, Find(s.trials, id), q)
  {
    hide Valid, Enter, Find, AdmissionError, FingerprintOf, Execution, Admitted;
    AdmittedExactly(q);
    FindHeld(s, q.trialId);
  }

  /** An id that a running trial holds for another execution is refused. */
  lemma BoundIsRefused(s: Study, q: Request, i: nat)
    requires Valid(s) && Admitted(q) && HeldBy(s, q.trialId, i) && KeepsOther(s.trials[i], q) && !Closed(s.trials[i])
    ensures Register(s, q) == Err(IdBound)
  {
    hide Valid, Enter, Find, AdmissionError, FingerprintOf, Execution, Admitted;
    AdmittedExactly(q);
    FindHeld(s, q.trialId);
  }

  /** The registration of an admitted candidate under an id that a trial holds. */
  lemma RegisterKnown(s: Study, q: Request, id: string, i: nat)
    requires Valid(s) && Admitted(q) && Settles(s, q, id) && HeldBy(s, id, i)
    ensures var t, r := s.trials[i], Register(s, q);
      if ReservedTrial(t) then Becomes(s, i, Queued(t, q, true), r)
      else if t.card.fingerprint != Execution(q) then r == Err(IdBound)
      else if AnotherControl(t, PlanGiven(q)) then r == Err(PlanChanged)
      else Becomes(s, i, Known(t, q), r)
  {
    hide Valid, Register, Find, Settled, Readmitted, Becomes, Queued, Known, PlanConflict, AnotherControl, Execution;
    hide FingerprintOf, PlanOf, Settles;
    EntersUnder(s, q, id);
    FindHeld(s, id);
    ReadmittedIs(s.trials[i], q, true);
    ReadmittedKeepsId(s.trials[i], q, true);
    SettledBecomes(s, i, Readmitted(s.trials[i], q, true));
  }

  lemma ReadmittedKeepsId(t: Trial, q: Request, byId: bool)
    ensures Readmitted(t, q, byId).card.id == t.card.id
  {
  }

  /** The registration of an admitted paper candidate whose execution a trial has under another id. */
  lemma RegisterSameExecution(s: Study, q: Request, id: string, i: nat)
    requires Valid(s) && Admitted(q) && Settles(s, q, id) && Unheld(s, id)
    requires q.node.paperCandidate && FirstWith(s, Execution(q), i)
    ensures var t, r := s.trials[i], Register(s, q);
      if ReservedTrial(t) then Becomes(s, i, Queued(t, q, false), r)
      else if AnotherControl(t, PlanGiven(q)) then r == Err(PlanChanged)
      else Becomes(s, i, Known(t, q), r)
  {
    hide Valid, Register, Find, Settled, Readmitted, Becomes, Queued, Known, PlanConflict, AnotherControl, Execution;
    hide FingerprintOf, PlanOf, Settles;
    EntersUnder(s, q, id);
    FindNone(s.trials, id);
    ReadmittedIs(s.trials[i], q, false);
    FindFirstWith(s, Execution(q), i);
    ReadmittedKeepsId(s.trials[i], q, false);
    SettledBecomes(s, i, Readmitted(s.trials[i], q, false));
  }

  lemma {:induction false} FindFirstWith(s: Study, fp: string, i: nat)
    requires FirstWith(s, fp, i)
    ensures FindFingerprint(s.trials, fp) == Some(i)
  {
    FirstFingerprint(s.trials, fp, i);
  }

  lemma {:induction false} FirstFingerprint(xs: seq<Trial>, fp: string, i: nat)
    requires i < |xs| && xs[i].card.fingerprint == fp && forall j :: 0 <= j < i ==> xs[j].card.fingerprint != fp
    ensures FindFingerprint(xs, fp) == Some(i)
  {
    if i < |xs| - 1 {
      FirstFingerprint(xs[..|xs| - 1], fp, i);
    } else {
      forall j | 0 <= j < i ensures xs[..i][j].card.fingerprint != fp {
        assert xs[..i][j] == xs[j];
      }
    }
  }

  /** Any other admitted candidate becomes a new trial under the id settled on. */
  lemma RegisterNew(s: Study, q: Request, id: string)
    requires Valid(s) && Admitted(q) && Settles(s, q, id) && Unheld(s, id)
    requires q.node.paperCandidate ==> forall i :: 0 <= i < |s.trials| ==> s.trials[i].card.fingerprint != Execution(q)
    ensures Appends(s, Fresh(id, q), Register(s, q))
  {
    hide Valid, Register, Find, Becomes, Settles, AdapterFailures, PriorFailures;
    EntersUnder(s, q, id);
    FindNone(s.trials, id);
    AdmittedExactly(q);
    FreshIs(id, q);
    var t := FreshTrial(id, q);
    BreakerInWords(s.trials + [t], t);
    NewEntryIgnored(s.trials, t);
    var found := FindFingerprint(s.trials, FingerprintOf(q));
    assert KnownAs(s, None, q) == None;
  }

  lemma FreshIs(id: string, q: Request)
    ensures FreshTrial(id, q) == Fresh(id, q)
  {
  }

  /** Whoever is not admitted is refused. */
  lemma RefusedExactly(s: Study, q: Request)
    ensures !Admitted(q) ==> Register(s, q).Err?
    ensures Register(s, q).Err? ==>
      (Admitted(q) <==> Register(s, q).error == IdBound || Register(s, q).error == PlanChanged)
  {
    hide Admitted;
    AdmittedExactly(q);
  }

  /** Which error a refused candidate gets: the first condition it fails in this order. */
  lemma RefusedFor(q: Request)
    requires !Admitted(q)
    ensures AdmissionError(q) == Some(
      if q.node.inferenceOnly then InferenceOnly
      else if !GoodOverride(q) then
        if !q.node.paperCandidate then OverrideNotPaper
        else if !LowerHex(q.fingerprintOverride.value) then OverrideNotSha256
        else OverrideNotBound
      else if !GoodPaper(q) then
        if q.node.shadow then
          if q.node.state == EligibleState || q.node.state == OtherState then ShadowReadiness else ShadowBlockers
        else if !q.eligible then PaperNotEligible
        else if q.node.state != EligibleState then PaperReadiness
        else PaperBlockers
      else if ReadinessOf(q) != None && ReadinessOf(q) != Some(AshaEligible) && !q.node.shadow then TrialReadiness
      else if !GoodReadiness(q) then EligibleWithBlockers
      else PlanNotReady)
  {
    if q.fingerprintOverride.Some? {
      HexDigits(q.fingerprintOverride.value);
    }
    hide LowerHex, IsSha256;
  }

  // Pre-registration

  /** The trial has the requested id or the node's execution. */
  predicate Meant(t: Trial, q: Request) {
    t.card.id == q.trialId || t.card.fingerprint == q.node.fingerprint
  }

  ghost predicate FirstMeant(s: Study, q: Request, i: nat) {
    i < |s.trials| && Meant(s.trials[i], q) && forall j :: 0 <= j < i ==> !Meant(s.trials[j], q)
  }

  /** A trial that is not eligible yet is parked as a reservation with the blockers now known; evidence is kept. */
  function Parked(t: Trial, q: Request): Trial {
    Trial(t.card.(readiness := Some(PreRegistered), blockers := q.blockers,
                  requiredEvidence := t.card.requiredEvidence + q.requiredEvidence),
          NeedsEvidence, None, t.observations, NoReason, false)
  }

  /** A reservation for a candidate nobody has registered. */
  function Reserve(q: Request): Trial {
    Trial(Card(q.trialId, q.candidateId, q.node.paperCandidate && q.node.attributionAllowed, q.node.lossInjection,
               q.node.fingerprint, Some(PreRegistered), q.blockers, q.paperIds, q.methodIds, q.mechanismIds,
               q.requiredEvidence, None),
          NeedsEvidence, None, [], NoReason, false)
  }

  function Reserving(t: Trial, q: Request): Trial {
    var u := if t.card.readiness == Some(AshaEligible) then t else Parked(t, q);
    u.(card := Joined(u.card, q))
  }

  lemma {:induction false} FindMeant(xs: seq<Trial>, q: Request, i: nat)
    requires i < |xs| && Meant(xs[i], q) && forall j :: 0 <= j < i ==> !Meant(xs[j], q)
    ensures FindReservation(xs, q) == Some(i)
  {
    if i < |xs| - 1 {
      FindMeant(xs[..|xs| - 1], q, i);
    } else {
      NobodyMeant(xs[..i], q);
    }
  }

  lemma {:induction false} NobodyMeant(xs: seq<Trial>, q: Request)
    requires forall j :: 0 <= j < |xs| ==> !Meant(xs[j], q)
    ensures FindReservation(xs, q) == None
  {
    if xs != [] {
      NobodyMeant(xs[..|xs| - 1], q);
    }
  }

  /** A reservation falls on the first trial it can mean, and only parks one that is not eligible. */
  lemma PreRegisterKnown(s: Study, q: Request, i: nat)
    requires !q.node.inferenceOnly && FirstMeant(s, q, i)
    ensures PreRegister(s, q) == Ok((s.(trials := s.trials[i := Reserving(s.trials[i], q)]), i))
  {
    FindMeant(s.trials, q, i);
  }

  /** Otherwise a new trial is reserved, unless the candidate is inference only. */
  lemma PreRegisterNew(s: Study, q: Request)
    ensures q.node.inferenceOnly ==> PreRegister(s, q) == Err(InferenceOnly)
    ensures !q.node.inferenceOnly && (forall i :: 0 <= i < |s.trials| ==> !Meant(s.trials[i], q)) ==>
      PreRegister(s, q) == Ok((s.(trials := s.trials + [Reserve(q)]), |s.trials|))
  {
    if forall i :: 0 <= i < |s.trials| ==> !Meant(s.trials[i], q) {
      NobodyMeant(s.trials, q);
    }
  }
}
