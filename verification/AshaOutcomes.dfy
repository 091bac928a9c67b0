/**
  What a report does to its trial, rung by rung and in both directions, in terms of the evidence alone:
  where the trial stands afterwards and, if it is eliminated, which condition it failed first.
  */
module AshaOutcomes {
  import opened Options
  import opened AshaTypes
  import opened Promotion
  import opened AshaSpec
  import opened AshaBookkeeping
  import opened AshaLadder
  import opened AshaSteps
  import Confidence

  /** The evidence is whole: no failure, complete, with a delta and both verifications. */
  predicate WholeEvidence(e: Evidence) {
    e.failure == "" && e.complete && e.delta.Some? && e.verified && e.pairedVerified
  }

  predicate StandsAs(t: Trial, status: TrialStatus, pending: Option<Stage>) {
    t.status == status && t.pending == pending
  }

  predicate DroppedFor(t: Trial, why: Reason) {
    t.status == Eliminated && t.pending == None && t.reason == why
  }

  /** The rejection reasons of the evidence if it gives any, and the rung's own reason otherwise. */
  function GateReason(e: Evidence, st: Stage): Reason {
    if e.rejection == "" then GateFailed(st) else Text(e.rejection)
  }

  // Filing

  lemma SettleKeepsFlag(cfg: Config, t: Trial, o: Observation)
    ensures var u := Settle(cfg, t, o);
      u.card == t.card && u.deferredForPaper == t.deferredForPaper && u.observations == t.observations
  {
    hide AllSeedsObserved, Confirms, GuardPilot10, GuardFullSeed1;
  }

  lemma RefreshKeepsFlag(cfg: Config, xs: seq<Trial>, i: nat)
    requires i < |xs|
    ensures var t, u := xs[i], Refresh(cfg, xs)[i];
      u.card == t.card && u.deferredForPaper == t.deferredForPaper && u.observations == t.observations
  {
    hide Guard, Measured, Refresh;
    RefreshAt(cfg, xs, i);
  }

  /** The report files its evidence at its own key and changes nothing else about what is known. */
  lemma ReportFiles(s: Study, i: nat, o: Observation, k: Key)
    requires i < |s.trials|
    ensures var t, u := s.trials[i], Report(s, i, o).trials[i];
      && u.card == t.card && u.deferredForPaper == t.deferredForPaper
      && At(u, k) == if k == o.key then Some(o.evidence) else At(t, k)
  {
    hide Record, Lookup, Settle, Refresh;
    RecordLookup(s.trials[i].observations, o, k);
    SettleKeepsFlag(s.cfg, Recorded(s.trials[i], o), o);
    RefreshKeepsFlag(s.cfg, s.trials[i := Settle(s.cfg, Recorded(s.trials[i], o), o)], i);
  }

  /** The record of the reported allocation is closed, with the first node named for it. */
  lemma ReportCloses(s: Study, i: nat, o: Observation, j: nat)
    requires Valid(s) && i < |s.trials| && j < |s.assignments|
    ensures var a, b := s.assignments[j], Report(s, i, o).assignments[j];
      && |Report(s, i, o).assignments| == |s.assignments|
      && b == (if a.trialId == s.trials[i].card.id && a.key == o.key then
                 a.(status := if o.evidence.failure == "" then AssignmentStatus.Completed else AssignmentStatus.Failed,
                    nodeId := if a.nodeId == None || a.nodeId == Some("") then Some(o.evidence.nodeId) else a.nodeId)
               else a)
  {
    hide TrialOk, Refresh, Settle, Record;
    FindKeyNone(s.assignments, s.trials[i].card.id, o.key);
    if s.assignments[j].trialId == s.trials[i].card.id && s.assignments[j].key == o.key {
      FindKeyOnly(s.assignments, j);
    }
  }

  // Evidence that cannot be ranked

  /** Evidence that is not whole fails the trial, or has it wait for better evidence at the same rung. */
  lemma ReportNotWhole(s: Study, i: nat, o: Observation)
    requires i < |s.trials| && !WholeEvidence(o.evidence)
    ensures var u := Report(s, i, o).trials[i];
      if o.evidence.failure != "" then StandsAs(u, TrialStatus.Failed, None) && u.reason == Text(o.evidence.failure)
      else StandsAs(u, NeedsEvidence, Some(o.key.stage)) && u.reason == s.trials[i].reason
  {
    hide Record, AllSeedsObserved, Confirms, GuardPilot10, GuardFullSeed1, Refresh;
  }

  // pilot_3

  /** The noise floor of a trial: the rung's, but no higher than -0.01 for loss injection. */
  function FloorFor(floor: real, lossInjection: bool): real {
    if lossInjection && floor > -0.01 then -0.01 else floor
  }

  predicate AboveNoise(cfg: Config, card: Card, d: real) {
    cfg.pilot3.noiseFloor.Some? ==> d >= FloorFor(cfg.pilot3.noiseFloor.value, card.lossInjection)
  }

  predicate PositiveIfAsked(rung: RungSpec, d: real) {
    rung.requirePositive ==> d > 0.0
  }

  lemma GuardInWords(cfg: Config, card: Card, e: Evidence)
    requires e.delta.Some?
    ensures var d := e.delta.value;
      Guard(cfg, card, e) ==
      if !AboveNoise(cfg, card, d) then BelowNoiseFloor
      else if !PositiveIfAsked(cfg.pilot3, d) then NonPositiveDelta(Pilot3)
      else if e.gate == Some(false) then GateReason(e, Pilot3)
      else NoReason
  {
  }

  lemma Pilot3Screens(cfg: Config, t: Trial, o: Observation)
    requires o.key == P3 && WholeEvidence(o.evidence)
    ensures var u := Screen(cfg, Settle(cfg, Recorded(t, o), o));
      if Guard(cfg, t.card, o.evidence) != NoReason then DroppedFor(u, Guard(cfg, t.card, o.evidence))
      else StandsAs(u, TrialStatus.Waiting, None) && u.reason == t.reason
  {
    hide Record, Lookup, Guard;
    RecordLookup(t.observations, o, P3);
  }

  /**
    Whole pilot_3 evidence eliminates its trial for the first of three conditions it fails: noise floor,
    positive delta where required, gate not rejected.  Otherwise the trial waits, or has moved on.
    */
  lemma Pilot3Outcome(s: Study, i: nat, o: Observation)
    requires i < |s.trials| && o.key == P3 && WholeEvidence(o.evidence)
    ensures var t, u, d := s.trials[i], Report(s, i, o).trials[i], o.evidence.delta.value;
      if !AboveNoise(s.cfg, t.card, d) then DroppedFor(u, BelowNoiseFloor)
      else if !PositiveIfAsked(s.cfg.pilot3, d) then DroppedFor(u, NonPositiveDelta(Pilot3))
      else if o.evidence.gate == Some(false) then DroppedFor(u, GateReason(o.evidence, Pilot3))
      else
        && (StandsAs(u, TrialStatus.Waiting, None) || StandsAs(u, PromotionPending, Some(Pilot10)))
        && u.reason == t.reason
  {
    var settled := Settle(s.cfg, Recorded(s.trials[i], o), o);
    RefreshAt(s.cfg, s.trials[i := settled], i);
    Pilot3Screens(s.cfg, s.trials[i], o);
    GuardInWords(s.cfg, s.trials[i].card, o.evidence);
    hide Record, Settle, Screen, Refresh, Guard, AboveNoise, Measured, Lookup;
  }

  // pilot_10

  predicate TargetImproved(rung: RungSpec, e: Evidence) {
    rung.requireTargetImprovement ==> e.improvedCount >= 1
  }

  /**
    Whole pilot_10 evidence moves its trial on to full seed 1 if and only if the delta is positive where
    required, the gate passed, and a target error improved where required; otherwise the trial is
    eliminated for the first of these it fails.
    */
  lemma Pilot10Outcome(s: Study, i: nat, o: Observation)
    requires i < |s.trials| && o.key == P10 && WholeEvidence(o.evidence)
    ensures var t, u, e := s.trials[i], Report(s, i, o).trials[i], o.evidence;
      if !PositiveIfAsked(s.cfg.pilot10, e.delta.value) then DroppedFor(u, NonPositiveDelta(Pilot10))
      else if e.gate != Some(true) then DroppedFor(u, GateReason(e, Pilot10))
      else if !TargetImproved(s.cfg.pilot10, e) then DroppedFor(u, TargetNotImproved)
      else StandsAs(u, FullPendingConfirmation, Some(FullSeed1)) && u.reason == t.reason
  {
    hide Record, Refresh;
  }

  // full seed 1

  /** Whole full seed 1 evidence moves its trial on exactly with a positive delta and a passed gate. */
  lemma FullSeed1Outcome(s: Study, i: nat, o: Observation)
    requires i < |s.trials| && o.key == FULL1 && WholeEvidence(o.evidence)
    ensures var t, u, e := s.trials[i], Report(s, i, o).trials[i], o.evidence;
      if e.delta.value <= 0.0 then DroppedFor(u, NonPositiveDelta(FullSeed1))
      else if e.gate != Some(true) then DroppedFor(u, GateReason(e, FullSeed1))
      else StandsAs(u, ConfirmationPending, Some(FullConfirmation)) && u.reason == t.reason
  {
    hide Record, Refresh;
  }

  // confirmation

  /** Full seed 1 for the first configured seed, and the confirmation seeds after it. */
  function KeyOfSeed(m: nat): Key {
    if m == 1 then Key(FullSeed1, 1) else Key(FullConfirmation, m)
  }

  /** What is known of the m-th seed once o has been filed. */
  function Known(t: Trial, o: Observation, m: nat): Option<Evidence> {
    if o.key == KeyOfSeed(m) then Some(o.evidence) else At(t, KeyOfSeed(m))
  }

  ghost predicate EverySeedKnown(cfg: Config, t: Trial, o: Observation) {
    forall m :: 1 <= m <= |cfg.seeds| ==> Known(t, o, m).Some?
  }

  /** The m-th seed gained and passed the gate. */
  predicate SeedPassed(t: Trial, o: Observation, m: nat) {
    Known(t, o, m).Some? &&
    (var e := Known(t, o, m).value; e.delta.Some? && e.delta.value > 0.0 && e.gate == Some(true))
  }

  ghost predicate EverySeedPassed(cfg: Config, t: Trial, o: Observation) {
    forall m :: 1 <= m <= |cfg.seeds| ==> SeedPassed(t, o, m)
  }

  function SeedDelta(t: Trial, o: Observation, m: nat): real {
    if Known(t, o, m).Some? && Known(t, o, m).value.delta.Some? then Known(t, o, m).value.delta.value else 0.0
  }

  /** The deltas of all seeds, in seed order. */
  function SeedDeltas(cfg: Config, t: Trial, o: Observation): (r: seq<real>)
    ensures |r| == |cfg.seeds| && forall j :: 0 <= j < |r| ==> r[j] == SeedDelta(t, o, j + 1)
  {
    seq(|cfg.seeds|, j requires 0 <= j < |cfg.seeds| => SeedDelta(t, o, j + 1))
  }

  lemma KnownAfter(cfg: Config, t: Trial, o: Observation)
    ensures forall j: nat :: At(Recorded(t, o), SeedKey(j)) == Known(t, o, j + 1)
    ensures AllSeedsObserved(cfg, Recorded(t, o)) <==> EverySeedKnown(cfg, t, o)
  {
    hide Record, Lookup;
    forall j: nat ensures SeedKey(j) == KeyOfSeed(j + 1) && At(Recorded(t, o), SeedKey(j)) == Known(t, o, j + 1) {
      RecordLookup(t.observations, o, SeedKey(j));
    }
    if EverySeedKnown(cfg, t, o) {
      forall j | 0 <= j < |cfg.seeds| ensures At(Recorded(t, o), SeedKey(j)).Some? {
        assert Known(t, o, j + 1).Some?;
      }
    }
    if AllSeedsObserved(cfg, Recorded(t, o)) {
      forall m | 1 <= m <= |cfg.seeds| ensures Known(t, o, m).Some? {
        assert At(Recorded(t, o), SeedKey(m - 1)).Some?;
      }
    }
  }

  lemma PassedAfter(cfg: Config, t: Trial, o: Observation)
    requires EverySeedKnown(cfg, t, o) && AllSeedsObserved(cfg, Recorded(t, o))
    ensures AllPositive(SeedEvidence(cfg, Recorded(t, o))) <==> EverySeedPassed(cfg, t, o)
    ensures EverySeedPassed(cfg, t, o) ==> Deltas(SeedEvidence(cfg, Recorded(t, o))) == SeedDeltas(cfg, t, o)
  {
    hide Record, Lookup, Deltas, Recorded, Known;
    var es := SeedEvidence(cfg, Recorded(t, o));
    KnownAfter(cfg, t, o);
    forall j | 0 <= j < |cfg.seeds| ensures Known(t, o, j + 1) == Some(es[j]) {
      assert At(Recorded(t, o), SeedKey(j)) == Some(es[j]);
    }
    if AllPositive(es) {
      forall m | 1 <= m <= |cfg.seeds| ensures SeedPassed(t, o, m) {
        assert Positive(es[m - 1]);
      }
    }
    if EverySeedPassed(cfg, t, o) {
      forall j | 0 <= j < |es| ensures Positive(es[j]) && es[j].delta.value == SeedDelta(t, o, j + 1) {
        assert SeedPassed(t, o, j + 1);
      }
      DeltasAre(es);
      assert Deltas(es) == SeedDeltas(cfg, t, o);
    }
  }

  lemma {:induction false} DeltasAre(es: seq<Evidence>)
    requires forall j :: 0 <= j < |es| ==> es[j].delta.Some?
    ensures |Deltas(es)| == |es| && forall j :: 0 <= j < |es| ==> Deltas(es)[j] == es[j].delta.value
  {
    if es != [] {
      assert forall j :: 0 <= j < |es[1..]| ==> es[1..][j] == es[j + 1];
      DeltasAre(es[1..]);
    }
  }

  /**
    Whole confirmation evidence: while a seed is missing the trial waits for the next one; then it is
    confirmed if and only if every seed gained and passed the gate and the interval over exactly their
    deltas lies above zero, and eliminated for the first of these two that fails otherwise.
    */
  lemma ConfirmationOutcome(s: Study, i: nat, o: Observation)
    requires i < |s.trials| && o.key.stage == FullConfirmation && WholeEvidence(o.evidence)
    ensures var t, u := s.trials[i], Report(s, i, o).trials[i];
      if !EverySeedKnown(s.cfg, t, o) then
        StandsAs(u, ConfirmationPending, Some(FullConfirmation)) && u.reason == t.reason
      else if !EverySeedPassed(s.cfg, t, o) then DroppedFor(u, NotConsistentlyPositive)
      else if !Confidence.LowerBoundPositive(SeedDeltas(s.cfg, t, o)) then DroppedFor(u, IntervalNotPositive)
      else StandsAs(u, Confirmed, None) && u.reason == t.reason
  {
    hide Record, Lookup, Refresh, AllSeedsObserved, AllPositive, Deltas, Confidence.LowerBoundPositive;
    hide EverySeedKnown, EverySeedPassed;
    var t := s.trials[i];
    KnownAfter(s.cfg, t, o);
    if EverySeedKnown(s.cfg, t, o) {
      PassedAfter(s.cfg, t, o);
    }
  }
}
