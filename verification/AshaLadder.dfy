/**
  The ladder invariant of disciplined runs: where a trial stands, what its evidence says, and which
  allocations exist for it always agree.  It is stated trial by trial through `Slot`, the status of
  the allocation recorded for one (trial, stage, seed).
  */
module AshaLadder {
  import opened Options
  import opened AshaTypes
  import opened Promotion
  import opened AshaSpec
  import opened AshaBookkeeping

  /** The evidence accepted at a key: reported without failure and fit to be ranked. */
  predicate Accepted(e: Evidence) {
    e.failure == "" && Usable(e)
  }

  /** The trial has delivered what rung st asks for. */
  predicate Passed(cfg: Config, t: Trial, st: Stage) {
    match st
    case Pilot3 =>
      At(t, P3).Some? && Accepted(At(t, P3).value) && Guard(cfg, t.card, At(t, P3).value) == NoReason
    case Pilot10 =>
      At(t, P10).Some? && Accepted(At(t, P10).value) && GuardPilot10(cfg, At(t, P10).value) == NoReason
    case FullSeed1 =>
      At(t, FULL1).Some? && Accepted(At(t, FULL1).value) && GuardFullSeed1(At(t, FULL1).value) == NoReason
    case FullConfirmation =>
      AllSeedsObserved(cfg, t) && Confirms(SeedEvidence(cfg, t))
  }

  /** Every rung below st is passed. */
  predicate Before(cfg: Config, t: Trial, st: Stage) {
    && (Rung(st) > 0 ==> Passed(cfg, t, Pilot3))
    && (Rung(st) > 1 ==> Passed(cfg, t, Pilot10))
    && (Rung(st) > 2 ==> Passed(cfg, t, FullSeed1))
  }

  ghost predicate NothingAbove(t: Trial, st: Stage) {
    forall k: Key :: Rung(k.stage) > Rung(st) ==> At(t, k).None?
  }

  /** The trial is ready to train its next key at stage st. */
  ghost predicate Awaits(cfg: Config, t: Trial, st: Stage) {
    && Before(cfg, t, st)
    && NothingAbove(t, st)
    && Legal(cfg, NextKey(cfg, t, st))
    && At(t, NextKey(cfg, t, st)).None?
  }

  ghost predicate Climb(cfg: Config, t: Trial) {
    match t.status
    case Waiting =>
      || (t.pending == Some(Pilot3) && Awaits(cfg, t, Pilot3))
      || (t.pending == None && Passed(cfg, t, Pilot3) && NothingAbove(t, Pilot3))
    case NeedsEvidence =>
      t.pending.Some? && Before(cfg, t, t.pending.value) && NothingAbove(t, t.pending.value)
    case Confirmed => Before(cfg, t, FullConfirmation) && Passed(cfg, t, FullConfirmation)
    case Eliminated => true
    case Failed => true
    case _ => t.pending.Some? && Awaits(cfg, t, t.pending.value)
  }

  /** The trial is parked for an allocation at stage st that has not started. */
  predicate ParkedAt(t: Trial, st: Stage) {
    (t.status, t.pending) == DeferredState(st)
  }

  predicate RunsAt(t: Trial, st: Stage) {
    t.status.Running? && t.pending == Some(st)
  }

  /** What the allocation recorded for key k says about its trial. */
  ghost predicate KeyOk(cfg: Config, asgs: seq<Assignment>, t: Trial, k: Key) {
    var st := Slot(asgs, t.card.id, k);
    && (At(t, k).Some? <==> st.Some? && Consumed(st.value))
    && (st.Some? ==> Legal(cfg, k) && Before(cfg, t, k.stage))
    && (st == Some(AssignmentStatus.Running) ==> RunsAt(t, k.stage))
    && (st == Some(Issued) || st == Some(Deferred) ==> ParkedAt(t, k.stage))
    && (st.Some? && !Consumed(st.value) ==> k == NextKey(cfg, t, k.stage))
  }

  ghost predicate TrialInv(cfg: Config, asgs: seq<Assignment>, t: Trial) {
    && Climb(cfg, t)
    && Screen(cfg, t) == t
    && forall k :: KeyOk(cfg, asgs, t, k)
  }

  ghost predicate Inv(s: Study) {
    && Valid(s)
    && SingleOutstanding(s.assignments)
    && forall i :: 0 <= i < |s.trials| ==> TrialInv(s.cfg, s.assignments, s.trials[i])
  }

  // Slots under updates of the assignment list

  lemma {:induction false} FindKeySame(xs: seq<Assignment>, ys: seq<Assignment>, id: string, k: Key)
    requires SameKeys(xs, ys)
    ensures FindKey(xs, id, k) == FindKey(ys, id, k)
  {
    if xs != [] {
      FindKeySame(xs[..|xs| - 1], ys[..|ys| - 1], id, k);
    }
  }

  lemma SlotUpdate(asgs: seq<Assignment>, j: nat, a: Assignment, id: string, k: Key)
    requires UniqueAssignments(asgs) && j < |asgs|
    requires a.trialId == asgs[j].trialId && a.key == asgs[j].key && a.id == asgs[j].id
    ensures Slot(asgs[j := a], id, k) == if IsFor(a, id, k) then Some(a.status) else Slot(asgs, id, k)
  {
    FindKeySame(asgs, asgs[j := a], id, k);
    if IsFor(a, id, k) {
      FindKeyOnly(asgs, j);
    }
  }

  lemma SlotAppend(asgs: seq<Assignment>, a: Assignment, id: string, k: Key)
    requires FindKey(asgs, a.trialId, a.key).None?
    ensures Slot(asgs + [a], id, k) == if IsFor(a, id, k) then Some(a.status) else Slot(asgs, id, k)
  {
    assert (asgs + [a])[..|asgs|] == asgs;
  }

  lemma SlotOf(asgs: seq<Assignment>, j: nat)
    requires UniqueAssignments(asgs) && j < |asgs|
    ensures Slot(asgs, asgs[j].trialId, asgs[j].key) == Some(asgs[j].status)
  {
    FindKeyOnly(asgs, j);
  }

  ghost predicate SameSlots(asgs: seq<Assignment>, asgs': seq<Assignment>, id: string) {
    forall k: Key :: Slot(asgs', id, k) == Slot(asgs, id, k)
  }

  lemma TrialInvFrame(cfg: Config, asgs: seq<Assignment>, asgs': seq<Assignment>, t: Trial)
    requires TrialInv(cfg, asgs, t) && SameSlots(asgs, asgs', t.card.id)
    ensures TrialInv(cfg, asgs', t)
  {
    forall k: Key ensures KeyOk(cfg, asgs', t, k) {
      assert KeyOk(cfg, asgs, t, k);
    }
  }

  // What an open allocation says

  /** An open allocation fixes where the trial stands and which key it trains. */
  lemma OpenSlot(cfg: Config, asgs: seq<Assignment>, t: Trial, k: Key)
    requires TrialInv(cfg, asgs, t)
    requires Slot(asgs, t.card.id, k).Some? && !Consumed(Slot(asgs, t.card.id, k).value)
    ensures Awaits(cfg, t, k.stage) && k == NextKey(cfg, t, k.stage) && t.pending == Some(k.stage)
    ensures ParkedAt(t, k.stage) || RunsAt(t, k.stage)
  {
    assert KeyOk(cfg, asgs, t, k);
  }

  lemma OneOpenSlot(cfg: Config, asgs: seq<Assignment>, t: Trial, k: Key, k': Key)
    requires TrialInv(cfg, asgs, t)
    requires Slot(asgs, t.card.id, k).Some? && !Consumed(Slot(asgs, t.card.id, k).value)
    requires Slot(asgs, t.card.id, k').Some? && !Consumed(Slot(asgs, t.card.id, k').value)
    ensures k == k'
  {
    OpenSlot(cfg, asgs, t, k);
    OpenSlot(cfg, asgs, t, k');
  }

  // report

  /** The report answers an allocation that is being worked on. */
  predicate Answers(s: Study, i: nat, o: Observation)
    requires i < |s.trials|
  {
    Slot(s.assignments, s.trials[i].card.id, o.key).Some?
    && Outstanding(Slot(s.assignments, s.trials[i].card.id, o.key).value)
  }

  /** The report redoes a key of the stage a trial needs evidence for. */
  predicate Redoes(s: Study, i: nat, o: Observation)
    requires i < |s.trials|
  {
    var t := s.trials[i];
    t.status.NeedsEvidence? && t.pending == Some(o.key.stage) && At(t, o.key).Some?
  }

  predicate MayReport(s: Study, i: nat, o: Observation)
    requires i < |s.trials|
  {
    Answers(s, i, o) || Redoes(s, i, o)
  }

  /** The trial stands where a report at key k is due. */
  ghost predicate Due(cfg: Config, asgs: seq<Assignment>, t: Trial, k: Key) {
    && Before(cfg, t, k.stage) && NothingAbove(t, k.stage) && Legal(cfg, k)
    && Slot(asgs, t.card.id, k).Some?
    && forall k': Key :: k' != k && Slot(asgs, t.card.id, k').Some? ==> Consumed(Slot(asgs, t.card.id, k').value)
  }

  lemma ReportIsDue(s: Study, i: nat, o: Observation)
    requires Inv(s) && i < |s.trials| && MayReport(s, i, o)
    ensures Due(s.cfg, s.assignments, s.trials[i], o.key)
  {
    hide Screen, Lookup, Slot, Passed, NextKey, Valid, SingleOutstanding;
    var t := s.trials[i];
    assert TrialInv(s.cfg, s.assignments, t);
    assert KeyOk(s.cfg, s.assignments, t, o.key);
    forall k': Key | k' != o.key && Slot(s.assignments, t.card.id, k').Some?
      ensures Consumed(Slot(s.assignments, t.card.id, k').value)
    {
      if !Consumed(Slot(s.assignments, t.card.id, k').value) {
        OpenSlot(s.cfg, s.assignments, t, k');
        if Answers(s, i, o) {
          OneOpenSlot(s.cfg, s.assignments, t, o.key, k');
        }
      }
    }
  }

  /** Recording at k leaves the rungs below and above k as they were. */
  lemma RecordedRungs(cfg: Config, t: Trial, o: Observation)
    requires Before(cfg, t, o.key.stage) && NothingAbove(t, o.key.stage)
    ensures var r := Recorded(t, o);
      Before(cfg, r, o.key.stage) && NothingAbove(r, o.key.stage) && At(r, o.key) == Some(o.evidence)
  {
    RecordLookup(t.observations, o, P3);
    RecordLookup(t.observations, o, P10);
    RecordLookup(t.observations, o, FULL1);
    RecordLookup(t.observations, o, o.key);
    forall k: Key | Rung(k.stage) > Rung(o.key.stage) ensures At(Recorded(t, o), k).None? {
      RecordLookup(t.observations, o, k);
    }
  }

  /** Rungs are judged by evidence and card alone. */
  lemma SameEvidence(cfg: Config, t: Trial, r: Trial, st: Stage)
    requires r.card == t.card && r.observations == t.observations
    ensures Before(cfg, r, st) == Before(cfg, t, st)
    ensures NothingAbove(t, st) ==> NothingAbove(r, st)
    ensures Passed(cfg, r, st) == Passed(cfg, t, st)
    ensures NextKey(cfg, r, st) == NextKey(cfg, t, st)
  {
    if NothingAbove(t, st) {
      forall k: Key | Rung(k.stage) > Rung(st) ensures At(r, k).None? {
        assert At(t, k).None?;
      }
    }
    SameMissingSeed(cfg, t, r, 2);
    if AllSeedsObserved(cfg, t) {
      assert SeedEvidence(cfg, t) == SeedEvidence(cfg, r);
    }
  }

  lemma {:induction false} SameMissingSeed(cfg: Config, t: Trial, r: Trial, k: nat)
    requires r.observations == t.observations && 2 <= k <= |cfg.seeds| + 1
    ensures MissingSeedFrom(cfg, r, k) == MissingSeedFrom(cfg, t, k)
    decreases |cfg.seeds| + 1 - k
  {
    if k <= |cfg.seeds| && At(t, Key(FullConfirmation, k)).Some? {
      SameMissingSeed(cfg, t, r, k + 1);
    }
  }

  lemma ScreenPassed(cfg: Config, t: Trial)
    requires Passed(cfg, t, Pilot3)
    ensures Screen(cfg, t) == t
  {
  }

  lemma ConfirmationStep(cfg: Config, t: Trial)
    requires Before(cfg, t, FullConfirmation)
    ensures Climb(cfg, FinishConfirmation(cfg, t))
  {
    var r := FinishConfirmation(cfg, t);
    SameEvidence(cfg, t, r, FullConfirmation);
    if !AllSeedsObserved(cfg, t) {
      var j :| 0 <= j < |cfg.seeds| && At(t, SeedKey(j)).None?;
      assert SeedKey(j) == Key(FullConfirmation, j + 1);
      assert MissingSeedFrom(cfg, t, 2) <= |cfg.seeds|;
    }
  }

  /** Once screened, a reported trial stands where its evidence puts it. */
  lemma SettledClimbs(cfg: Config, t: Trial, o: Observation)
    requires Before(cfg, t, o.key.stage) && NothingAbove(t, o.key.stage)
    requires At(t, o.key) == Some(o.evidence) && Legal(cfg, o.key)
    ensures Climb(cfg, Screen(cfg, Settle(cfg, t, o)))
    ensures !o.key.stage.Pilot3? || !Accepted(o.evidence) ==>
      Screen(cfg, Settle(cfg, t, o)) == Settle(cfg, t, o)
  {
    var r := Settle(cfg, t, o);
    SameEvidence(cfg, t, r, o.key.stage);
    if o.evidence.failure == "" && Usable(o.evidence) {
      match o.key.stage
      case Pilot3 =>
        if Guard(cfg, t.card, o.evidence) == NoReason {
          assert Passed(cfg, r, Pilot3);
        }
      case Pilot10 =>
        SameEvidence(cfg, t, r, Pilot3);
        ScreenPassed(cfg, r);
        SameEvidence(cfg, t, r, FullSeed1);
      case FullSeed1 =>
        SameEvidence(cfg, t, r, Pilot3);
        ScreenPassed(cfg, r);
        FullSeed1Step(cfg, t, o.evidence);
      case FullConfirmation =>
        SameEvidence(cfg, t, r, Pilot3);
        ScreenPassed(cfg, r);
        ConfirmationStep(cfg, t);
    }
  }

  lemma FullSeed1Step(cfg: Config, t: Trial, e: Evidence)
    requires Before(cfg, t, FullSeed1) && NothingAbove(t, FullSeed1)
    requires At(t, FULL1) == Some(e) && Accepted(e)
    ensures Climb(cfg, FinishFullSeed1(t, e))
  {
    var r := FinishFullSeed1(t, e);
    SameEvidence(cfg, t, r, FullConfirmation);
    assert At(t, Key(FullConfirmation, 2)).None?;
    if GuardFullSeed1(e) == NoReason {
      assert NothingAbove(r, FullConfirmation);
    }
  }

  lemma PromotedClimbs(cfg: Config, t: Trial)
    requires Climb(cfg, t) && Promotable(t) && Measured(t)
    ensures t.pending == None && Passed(cfg, t, Pilot3)
    ensures Climb(cfg, Promote(t)) && Screen(cfg, Promote(t)) == Promote(t)
  {
    var r := Promote(t);
    SameEvidence(cfg, t, r, Pilot10);
    SameEvidence(cfg, t, r, Pilot3);
    ScreenPassed(cfg, r);
    forall k: Key | Rung(k.stage) > Rung(Pilot10) ensures At(r, k).None? {
      assert At(t, k).None?;
    }
  }
}
