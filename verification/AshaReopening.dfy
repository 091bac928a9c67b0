/**
  Beyond disciplined runs: registrations, reservations, evidence-only completions, control failures, and
  reports of any kind.  A completed allocation is handed out a second time only after one of four kinds
  of call, each of which can be recognized before it is made.
  */
module AshaReopening {
  import opened Options
  import opened AshaTypes
  import opened Promotion
  import opened AshaSpec
  import opened AshaBookkeeping
  import opened AshaLadder
  import opened AshaSteps
  import opened AshaRuns
  import opened AshaCalls
  import opened AshaReissue
  import opened AshaStranding
  import opened Registration

  // Consumed keys and evidence

  predicate Spent(asgs: seq<Assignment>, id: string, k: Key) {
    Slot(asgs, id, k).Some? && Consumed(Slot(asgs, id, k).value)
  }

  predicate Open(asgs: seq<Assignment>, id: string, k: Key) {
    Slot(asgs, id, k).Some? && Outstanding(Slot(asgs, id, k).value)
  }

  /** The allocation at k was consumed without leaving an observation. */
  predicate Burnt(asgs: seq<Assignment>, t: Trial, k: Key) {
    Spent(asgs, t.card.id, k) && At(t, k).None?
  }

  ghost predicate HasBurnt(asgs: seq<Assignment>, t: Trial) {
    exists k: Key :: Burnt(asgs, t, k)
  }

  /** The trial is off the ladder, and nobody else's report brings it back. */
  predicate OffLadder(t: Trial) {
    t.status.Eliminated? || t.status.Failed? || t.status.Confirmed? || (t.status.NeedsEvidence? && t.pending == None)
  }

  ghost predicate NothingOpen(asgs: seq<Assignment>, id: string) {
    forall k: Key :: !Open(asgs, id, k)
  }

  /** A trial waiting for pilot_10 or for full seed 1 has not consumed it. */
  predicate StatusFits(asgs: seq<Assignment>, t: Trial) {
    && (t.status.PromotionPending? ==> !Spent(asgs, t.card.id, P10))
    && (t.status.FullPendingConfirmation? ==> !Spent(asgs, t.card.id, FULL1))
  }

  predicate LegalSlot(cfg: Config, asgs: seq<Assignment>, id: string, k: Key) {
    Slot(asgs, id, k).Some? ==> Legal(cfg, k)
  }

  /** A trial with a consumed key without evidence is off the ladder with nothing open. */
  ghost predicate Clean(cfg: Config, asgs: seq<Assignment>, t: Trial) {
    && (forall k: Key :: LegalSlot(cfg, asgs, t.card.id, k))
    && (HasBurnt(asgs, t) ==> OffLadder(t) && NothingOpen(asgs, t.card.id))
    && StatusFits(asgs, t)
  }

  ghost predicate AllClean(s: Study) {
    Valid(s) && forall i :: 0 <= i < |s.trials| ==> Clean(s.cfg, s.assignments, s.trials[i])
  }

  /** A trial keeps clean when its slots and evidence stay and it is not brought back with a burnt key. */
  lemma StaysClean(cfg: Config, asgs: seq<Assignment>, asgs': seq<Assignment>, t: Trial, r: Trial)
    requires Clean(cfg, asgs, t) && SameSlots(asgs, asgs', t.card.id)
    requires r.card.id == t.card.id && r.observations == t.observations && StatusFits(asgs, r)
    requires HasBurnt(asgs, t) ==> OffLadder(r)
    ensures Clean(cfg, asgs', r)
  {
    forall k: Key ensures LegalSlot(cfg, asgs', r.card.id, k) {
      assert LegalSlot(cfg, asgs, t.card.id, k);
    }
    if HasBurnt(asgs', r) {
      var k: Key :| Burnt(asgs', r, k);
      assert Burnt(asgs, t, k);
      forall k': Key ensures !Open(asgs', r.card.id, k') {
        assert !Open(asgs, t.card.id, k');
      }
    }
  }

  /** A clean trial is never offered a key that was consumed. */
  lemma CleanOffersFresh(s: Study, i: nat, confirm: bool)
    requires AllClean(s) && i < |s.trials|
    ensures !NextKeyIsSpent(s, i, confirm)
  {
    var t := s.trials[i];
    assert Clean(s.cfg, s.assignments, t) && TrialOk(s.assignments, t);
    if NextKeyIsSpent(s, i, confirm) {
      var k := Choice(s.cfg, t, confirm).value;
      assert Spent(s.assignments, t.card.id, k);
      if At(t, k).None? {
        assert Burnt(s.assignments, t, k);
      }
    }
  }

  // The calls that reopen

  /** Where a report puts its trial before anybody else is looked at. */
  function Landed(cfg: Config, t: Trial, o: Observation): Trial {
    var u := Settle(cfg, Recorded(t, o), o);
    if Refreshes(o) then Screen(cfg, u) else u
  }

  /** The registration queues a trial again that has consumed a key without evidence. */
  ghost predicate RevivesBurnt(s: Study, q: Request) {
    Register(s, q).Ok? &&
    (var i := Register(s, q).value.1;
     i < |s.trials| && IsPreRegistered(s.trials[i]) && HasBurnt(s.assignments, s.trials[i]) && !BreakerFires(s, i, q))
  }

  /** Two other trials of the candidate the registration is for have failed in their adapter. */
  predicate BreakerFires(s: Study, i: nat, q: Request)
    requires i < |s.trials|
  {
    var t := s.trials[i];
    var paper := if IsPreRegistered(t) && Target(s, q).Some? then q.node.paperCandidate && q.node.attributionAllowed
                 else t.card.paper;
    paper && PriorFailures(s.trials, t) >= ADAPTER_CIRCUIT_BREAKER_LIMIT
  }

  /**
    The report keeps a trial on the ladder that has consumed another key without evidence, or passes
    pilot_10 although full seed 1 has been consumed.
    */
  ghost predicate ReturnsToSpent(s: Study, i: nat, o: Observation)
    requires i < |s.trials|
  {
    var t := s.trials[i];
    || ((exists k: Key :: k != o.key && Burnt(s.assignments, t, k)) && !OffLadder(Landed(s.cfg, t, o)))
    || PassesIntoSpent(s, i, o)
  }

  predicate PassesIntoSpent(s: Study, i: nat, o: Observation)
    requires i < |s.trials|
  {
    && o.key.stage.Pilot10? && Delivers(o) && GuardPilot10(s.cfg, o.evidence) == NoReason
    && Spent(s.assignments, s.trials[i].card.id, FULL1)
  }

  /** mark_running claims a deferred allocation of a trial that has consumed a key without evidence. */
  ghost predicate ClaimsForBurnt(s: Study, id: string, k: Key) {
    && Slot(s.assignments, id, k) == Some(Deferred) && Find(s.trials, id).Some?
    && HasBurnt(s.assignments, s.trials[Find(s.trials, id).value])
  }

  /** The calls after which a consumed assignment may come back. */
  ghost predicate Reopens(s: Study, c: Call) {
    match c
    case DoRegister(q) => RevivesBurnt(s, q)
    case DoReport(i, o) => i < |s.trials| && ReturnsToSpent(s, i, o)
    case DoMark(id, k, _, _) => ClaimsForBurnt(s, id, k)
    case _ => false
  }

  // registration

  lemma {:induction false} PriorFailuresIgnoreSelf(trials: seq<Trial>, t: Trial, i: nat, u: Trial)
    requires i < |trials| && trials[i].card.id == t.card.id == u.card.id
    requires u.card.candidateId == t.card.candidateId
    ensures PriorFailures(trials[i := u], u) == PriorFailures(trials, t)
  {
    var n := |trials| - 1;
    if i < n {
      assert trials[i := u][..n] == trials[..n][i := u];
      PriorFailuresIgnoreSelf(trials[..n], t, i, u);
    } else {
      assert trials[i := u][..n] == trials[..n];
      PriorFailuresSame(trials[..n], t, u);
    }
  }

  lemma {:induction false} PriorFailuresSame(trials: seq<Trial>, t: Trial, u: Trial)
    requires t.card.id == u.card.id && t.card.candidateId == u.card.candidateId
    ensures PriorFailures(trials, u) == PriorFailures(trials, t)
  {
    if trials != [] {
      PriorFailuresSame(trials[..|trials| - 1], t, u);
    }
  }

  /** What a registration makes of a trial it falls on: its evidence stays, and when it is queued again. */
  lemma RegisteredTrial(s: Study, q: Request)
    requires Valid(s) && Register(s, q).Ok? && Register(s, q).value.1 < |s.trials|
    ensures var r := Register(s, q).value;
      var t, u := s.trials[r.1], r.0.trials[r.1];
      && r.0.trials == s.trials[r.1 := u]
      && u.card.id == t.card.id && u.observations == t.observations
      && (if IsPreRegistered(t) then
            if BreakerFires(s, r.1, q) then u.status.Failed? && u.pending == None
            else u.status.Waiting? && u.pending == Some(Pilot3)
          else if t.status.Waiting? && BreakerFires(s, r.1, q) then u.status.Failed? && u.pending == None
          else u.status == t.status && u.pending == t.pending)
  {
    var i := Register(s, q).value.1;
    var t := Readmitted(s.trials[i], q, Target(s, q).Some?);
    assert Register(s, q).value == Settled(s, i, t);
    PriorFailuresIgnoreSelf(s.trials, s.trials[i], i, t);
  }

  /** The record of a new trial is empty. */
  lemma NewcomerIsClean(s: Study, t: Trial)
    requires AllClean(s) && Find(s.trials, t.card.id).None? && !t.status.PromotionPending?
    requires !t.status.FullPendingConfirmation?
    ensures Clean(s.cfg, s.assignments, t)
  {
    forall k: Key ensures Slot(s.assignments, t.card.id, k).None? {
      FindKeyNone(s.assignments, t.card.id, k);
      assert forall j :: 0 <= j < |s.assignments| ==> KnownAssignment(s.trials, s.assignments[j]);
    }
  }

  lemma RegisterKeepsClean(s: Study, q: Request)
    requires AllClean(s) && Register(s, q).Ok?
    ensures AllClean(Register(s, q).value.0) <==> !RevivesBurnt(s, q)
  {
    hide Valid, Clean, BreakerFires;
    var r := Register(s, q).value;
    RegisterKeepsValid(s, q);
    if r.1 < |s.trials| {
      RegisteredTrial(s, q);
      hide Register;
      ReadmittedCleanExactly(s, r.0, r.1, RevivesBurnt(s, q));
    } else {
      var t := FreshTrial(TargetId(s, q), q);
      var u := Broken(s.trials + [t], t);
      assert r.0.trials == s.trials + [u];
      NewcomerIsClean(s, u);
    }
  }

  lemma ReadmittedCleanExactly(s: Study, r: Study, i: nat, revived: bool)
    requires AllClean(s) && Valid(r) && i < |s.trials| == |r.trials| && r.cfg == s.cfg && r.assignments == s.assignments
    requires r.trials == s.trials[i := r.trials[i]]
    requires var t, u := s.trials[i], r.trials[i];
      && u.card.id == t.card.id && u.observations == t.observations
      && (revived ==> HasBurnt(s.assignments, t) && u.status.Waiting?)
      && (!revived && HasBurnt(s.assignments, t) ==> (OffLadder(t) ==> OffLadder(u)))
      && (u.status.Waiting? || OffLadder(u) || u.status == t.status)
    ensures AllClean(r) <==> !revived
  {
    hide Valid;
    var t, u := s.trials[i], r.trials[i];
    assert Clean(s.cfg, s.assignments, t);
    if revived {
      var k: Key :| Burnt(s.assignments, t, k);
      assert Burnt(r.assignments, u, k);
      assert !Clean(r.cfg, r.assignments, u);
    } else {
      StaysClean(s.cfg, s.assignments, r.assignments, t, u);
    }
  }

  lemma PreRegisterKeepsClean(s: Study, q: Request)
    requires AllClean(s) && PreRegister(s, q).Ok?
    ensures AllClean(PreRegister(s, q).value.0)
  {
    hide Valid, Clean;
    var r := PreRegister(s, q).value;
    PreRegisterKeepsValid(s, q);
    if r.1 < |s.trials| {
      ReadmittedCleanExactly(s, r.0, r.1, false);
    } else {
      forall i | 0 <= i < |s.trials| ensures s.trials[i].card.id != q.trialId {
        assert !MatchesReservation(s.trials[i], q);
      }
      FindNone(s.trials, q.trialId);
      NewcomerIsClean(s, Reservation(q));
    }
  }

  // report

  /** The reported trial is where its report lands it, or promoted from there. */
  lemma ReportLands(s: Study, i: nat, o: Observation)
    requires i < |s.trials|
    ensures var u, r := Landed(s.cfg, s.trials[i], o), Report(s, i, o).trials[i];
      r == u || (r == Promote(u) && Promotable(u) && !OffLadder(u))
  {
    RefreshAt(s.cfg, s.trials[i := Settle(s.cfg, Recorded(s.trials[i], o), o)], i);
  }

  /** Landing leaves a trial waiting for full seed 1 exactly when it passes pilot_10. */
  lemma LandedStatus(cfg: Config, t: Trial, o: Observation)
    ensures var u := Landed(cfg, t, o);
      && u.card == t.card && u.observations == Record(t.observations, o)
      && !u.status.PromotionPending?
      && (u.status.FullPendingConfirmation? <==>
            o.key.stage.Pilot10? && Delivers(o) && GuardPilot10(cfg, o.evidence) == NoReason)
  {
    hide Record, Lookup, Confirms, AllSeedsObserved, GuardPilot10, GuardFullSeed1, Guard;
  }

  /** The slots and the burnt keys of the reported trial. */
  lemma ReportedKeys(s: Study, i: nat, o: Observation, r: Trial, k: Key)
    requires Valid(s) && i < |s.trials|
    requires r.card == s.trials[i].card && r.observations == Record(s.trials[i].observations, o)
    ensures var t, asgs := s.trials[i], Report(s, i, o).assignments;
      && (Burnt(asgs, r, k) <==> k != o.key && Burnt(s.assignments, t, k))
      && (k != o.key ==> Slot(asgs, t.card.id, k) == Slot(s.assignments, t.card.id, k))
      && (Open(asgs, t.card.id, k) ==> Open(s.assignments, t.card.id, k))
      && (Slot(asgs, t.card.id, k).Some? <==> Slot(s.assignments, t.card.id, k).Some?)
  {
    hide Record, Refresh, Settle;
    var t := s.trials[i];
    FinishedSlots(s.assignments, t.card.id, o, t.card.id, k);
    RecordLookup(t.observations, o, k);
  }

  lemma ReportedCleanExactly(s: Study, i: nat, o: Observation)
    requires AllClean(s) && i < |s.trials|
    ensures var r := Report(s, i, o);
      Clean(s.cfg, r.assignments, r.trials[i]) <==> !ReturnsToSpent(s, i, o)
  {
    hide Record, Lookup, Report, Valid, Slot, Delivers, GuardPilot10, Landed, Legal;
    var r, t, u := Report(s, i, o), s.trials[i], Landed(s.cfg, s.trials[i], o);
    assert Clean(s.cfg, s.assignments, t);
    ReportLands(s, i, o);
    LandedStatus(s.cfg, t, o);
    var v := r.trials[i];
    forall k: Key
      ensures Burnt(r.assignments, v, k) <==> k != o.key && Burnt(s.assignments, t, k)
      ensures LegalSlot(s.cfg, r.assignments, v.card.id, k)
      ensures Open(r.assignments, v.card.id, k) ==> Open(s.assignments, t.card.id, k)
      ensures k != o.key ==> Spent(r.assignments, v.card.id, k) == Spent(s.assignments, t.card.id, k)
    {
      ReportedKeys(s, i, o, v, k);
      assert LegalSlot(s.cfg, s.assignments, t.card.id, k);
    }
    assert v.status.PromotionPending? && Spent(r.assignments, v.card.id, P10) ==> Burnt(r.assignments, v, P10);
    if HasBurnt(r.assignments, v) {
      var k: Key :| Burnt(r.assignments, v, k);
      assert k != o.key && Burnt(s.assignments, t, k);
      assert NothingOpen(r.assignments, v.card.id);
    }
    if k: Key :| k != o.key && Burnt(s.assignments, t, k) {
      assert Burnt(r.assignments, v, k);
    }
  }

  /** A trial that was not reported keeps clean: only the refresh may move it. */
  lemma OtherStaysClean(s: Study, i: nat, o: Observation, j: nat)
    requires AllClean(s) && i < |s.trials| && j < |s.trials| && j != i
    ensures var r := Report(s, i, o); Clean(s.cfg, r.assignments, r.trials[j])
  {
    hide Record, Lookup, Slot, Settle, Guard, Legal;
    var t, r := s.trials[j], Report(s, i, o);
    assert Clean(s.cfg, s.assignments, t);
    assert t.card.id != s.trials[i].card.id;
    RefreshAt(s.cfg, s.trials[i := Settle(s.cfg, Recorded(s.trials[i], o), o)], j);
    forall k: Key ensures Slot(r.assignments, t.card.id, k) == Slot(s.assignments, t.card.id, k) {
      FinishedSlots(s.assignments, s.trials[i].card.id, o, t.card.id, k);
    }
    if Promotable(t) && Spent(s.assignments, t.card.id, P10) {
      assert Burnt(s.assignments, t, P10);
    }
    StaysClean(s.cfg, s.assignments, r.assignments, t, r.trials[j]);
  }

  lemma ReportKeepsClean(s: Study, i: nat, o: Observation)
    requires AllClean(s) && i < |s.trials|
    ensures AllClean(Report(s, i, o)) <==> !ReturnsToSpent(s, i, o)
  {
    hide Clean, ReturnsToSpent, Valid, Report;
    var r := Report(s, i, o);
    ReportKeepsValid(s, i, o);
    assert r.cfg == s.cfg && |r.trials| == |s.trials| by { ReportShape(s, i, o); }
    ReportedCleanExactly(s, i, o);
    forall j | 0 <= j < |s.trials| && j != i ensures Clean(r.cfg, r.assignments, r.trials[j]) {
      OtherStaysClean(s, i, o, j);
    }
  }

  lemma ReportShape(s: Study, i: nat, o: Observation)
    requires i < |s.trials|
    ensures Report(s, i, o).cfg == s.cfg && |Report(s, i, o).trials| == |s.trials|
  {
  }

  // next_assignment

  lemma DeferredTrialClean(s: Study, i: nat)
    requires AllClean(s) && i < |s.trials|
    ensures Clean(s.cfg, DeferNative(s).assignments, DeferNative(s).trials[i])
  {
    hide Lookup, Legal, Slot, DeferNative;
    var t, r, asgs := s.trials[i], DeferNative(s).trials[i], DeferNative(s).assignments;
    assert Clean(s.cfg, s.assignments, t);
    assert r == DeferTrial(s.assignments, t) by { DeferredIs(s, i); }
    forall k: Key
      ensures LegalSlot(s.cfg, asgs, r.card.id, k)
      ensures Spent(asgs, r.card.id, k) == Spent(s.assignments, t.card.id, k)
      ensures Open(asgs, r.card.id, k) ==> Open(s.assignments, t.card.id, k)
    {
      DeferredSlot(s, i, k);
      assert LegalSlot(s.cfg, s.assignments, t.card.id, k);
    }
    if r != t {
      DeferredIsOpen(s, i);
    }
    if HasBurnt(asgs, r) {
      var k: Key :| Burnt(asgs, r, k);
      assert Burnt(s.assignments, t, k);
      assert NothingOpen(asgs, r.card.id);
    }
  }

  lemma DeferredIs(s: Study, i: nat)
    requires i < |s.trials|
    ensures DeferNative(s).trials[i] == DeferTrial(s.assignments, s.trials[i])
  {
  }

  /** A trial that is put back has an open allocation at the key it waits for. */
  lemma DeferredIsOpen(s: Study, i: nat)
    requires AllClean(s) && i < |s.trials| && LastOutstanding(s.assignments, s.trials[i].card.id).Some?
    ensures var id, st := s.trials[i].card.id, LastOutstanding(s.assignments, s.trials[i].card.id).value;
      && (exists k: Key :: Open(s.assignments, id, k))
      && (st.Pilot10? ==> Open(s.assignments, id, P10)) && (st.FullSeed1? ==> Open(s.assignments, id, FULL1))
  {
    var id, st := s.trials[i].card.id, LastOutstanding(s.assignments, s.trials[i].card.id).value;
    LastOutstandingSlot(s.assignments, id);
    var j :| 0 <= j < |s.assignments| && OutstandingAt(s.assignments[j], id, st);
    SlotOf(s.assignments, j);
    assert Clean(s.cfg, s.assignments, s.trials[i]);
    assert LegalSlot(s.cfg, s.assignments, id, s.assignments[j].key);
    assert Open(s.assignments, id, s.assignments[j].key);
  }

  lemma YieldedClean(s: Study, confirm: bool)
    requires AllClean(s)
    ensures AllClean(Yielded(s, confirm))
  {
    hide Clean, Valid;
    YieldedKeepsValid(s, confirm);
    if PaperPending(s.trials, confirm) {
      forall i | 0 <= i < |s.trials| ensures Clean(s.cfg, DeferNative(s).assignments, DeferNative(s).trials[i]) {
        DeferredTrialClean(s, i);
      }
    }
  }

  lemma IssuedClean(s: Study, i: nat, confirm: bool, j: nat)
    requires AllClean(s) && i < |s.trials| && j < |s.trials| && Choice(s.cfg, s.trials[i], confirm).Some?
    ensures var k := Choice(s.cfg, s.trials[i], confirm).value;
      1 <= k.seed <= |s.cfg.seeds| && Clean(s.cfg, Issue(s, i, k).0.assignments, s.trials[j])
  {
    var t, k := s.trials[i], Choice(s.cfg, s.trials[i], confirm).value;
    ChoiceSeed(s.cfg, t, confirm);
    assert !OffLadder(t);
    IssuedTrialClean(s, i, k, j);
  }

  lemma IssuedTrialClean(s: Study, i: nat, k: Key, j: nat)
    requires AllClean(s) && i < |s.trials| && j < |s.trials| && 1 <= k.seed <= |s.cfg.seeds| && Legal(s.cfg, k)
    requires !OffLadder(s.trials[i])
    ensures Clean(s.cfg, Issue(s, i, k).0.assignments, s.trials[j])
  {
    hide Lookup, Slot, Issue, Legal;
    var r, asgs := s.trials[j], Issue(s, i, k).0.assignments;
    assert Clean(s.cfg, s.assignments, r) && Clean(s.cfg, s.assignments, s.trials[i]);
    assert r.card.id == s.trials[i].card.id ==> i == j;
    forall k': Key
      ensures LegalSlot(s.cfg, asgs, r.card.id, k')
      ensures Spent(asgs, r.card.id, k') ==> Spent(s.assignments, r.card.id, k')
      ensures Open(asgs, r.card.id, k') && j != i ==> Open(s.assignments, r.card.id, k')
    {
      IssuedSlots(s, i, k, r.card.id, k');
      assert LegalSlot(s.cfg, s.assignments, r.card.id, k');
    }
    if HasBurnt(asgs, r) {
      var k': Key :| Burnt(asgs, r, k');
      assert Burnt(s.assignments, r, k');
      assert NothingOpen(asgs, r.card.id);
    }
  }

  lemma NextKeepsClean(s: Study, confirm: bool)
    requires AllClean(s)
    ensures AllClean(Next(s, confirm).0)
    ensures Next(s, confirm).1.Some? ==> !Consumed(Next(s, confirm).1.value.status)
  {
    hide Clean, Valid, Yielded, DeferNative, Issue, Choice, Legal;
    var y, p := Yielded(s, confirm), PaperPending(s.trials, confirm);
    YieldedClean(s, confirm);
    NextKeepsValid(s, confirm);
    ReturnsConsumedExactly(s, confirm);
    if Recoverable(y.trials, y.assignments, confirm, p).None? {
      var pick := Select(y, Order(y.trials, p), confirm);
      if pick.Some? {
        CleanOffersFresh(y, pick.value, confirm);
        ChoiceSeed(y.cfg, y.trials[pick.value], confirm);
        IssueShape(y, pick.value, Choice(y.cfg, y.trials[pick.value], confirm).value);
        forall j | 0 <= j < |y.trials| ensures Clean(y.cfg, Next(s, confirm).0.assignments, y.trials[j]) {
          IssuedClean(y, pick.value, confirm, j);
        }
      }
    }
  }

  lemma IssueShape(s: Study, i: nat, k: Key)
    requires i < |s.trials| && 1 <= k.seed <= |s.cfg.seeds|
    ensures Issue(s, i, k).0.cfg == s.cfg && Issue(s, i, k).0.trials == s.trials
  {
  }

  // mark_running

  lemma MarkedCleanExactly(s: Study, id: string, k: Key, run: Option<string>, node: Option<string>)
    requires AllClean(s) && MarkRunning(s, id, k, run, node).Ok?
    ensures var i, r := Find(s.trials, id).value, MarkRunning(s, id, k, run, node).value;
      Clean(s.cfg, r.assignments, r.trials[i]) <==> !ClaimsForBurnt(s, id, k)
  {
    hide Lookup, Legal, Slot, Valid;
    var i, r := Find(s.trials, id).value, MarkRunning(s, id, k, run, node).value;
    var t, u := s.trials[i], r.trials[i];
    assert Clean(s.cfg, s.assignments, t);
    assert u == t.(status := TrialStatus.Running, pending := Some(k.stage));
    MarkedSlot(s, id, k, run, node);
    forall k': Key
      ensures LegalSlot(s.cfg, r.assignments, id, k')
      ensures Burnt(r.assignments, u, k') <==> Burnt(s.assignments, t, k')
    {
      MarkedSlots(s, id, k, run, node, id, k');
      assert LegalSlot(s.cfg, s.assignments, id, k');
    }
    if HasBurnt(s.assignments, t) {
      var k': Key :| Burnt(s.assignments, t, k');
      assert Burnt(r.assignments, u, k');
      assert !Open(s.assignments, id, k);
    }
  }

  lemma MarkedSlot(s: Study, id: string, k: Key, run: Option<string>, node: Option<string>)
    requires MarkRunning(s, id, k, run, node).Ok?
    ensures Slot(s.assignments, id, k).Some? && !Consumed(Slot(s.assignments, id, k).value)
  {
  }

  lemma MarkKeepsClean(s: Study, id: string, k: Key, run: Option<string>, node: Option<string>)
    requires AllClean(s) && MarkRunning(s, id, k, run, node).Ok?
    ensures AllClean(MarkRunning(s, id, k, run, node).value) <==> !ClaimsForBurnt(s, id, k)
  {
    hide Clean, ClaimsForBurnt;
    var r := MarkRunning(s, id, k, run, node).value;
    MarkKeepsValid(s, id, k, run, node);
    MarkedCleanExactly(s, id, k, run, node);
    var i := Find(s.trials, id).value;
    forall j | 0 <= j < |s.trials| && j != i ensures Clean(r.cfg, r.assignments, r.trials[j]) {
      UnmarkedStaysClean(s, id, k, run, node, j);
    }
  }

  lemma UnmarkedStaysClean(s: Study, id: string, k: Key, run: Option<string>, node: Option<string>, j: nat)
    requires AllClean(s) && MarkRunning(s, id, k, run, node).Ok?
    requires j < |s.trials| && j != Find(s.trials, id).value
    ensures Clean(s.cfg, MarkRunning(s, id, k, run, node).value.assignments, s.trials[j])
  {
    hide Lookup, Legal, Slot;
    var r := MarkRunning(s, id, k, run, node).value;
    assert Clean(s.cfg, s.assignments, s.trials[j]);
    assert s.trials[j].card.id != id;
    forall k': Key
      ensures Slot(r.assignments, s.trials[j].card.id, k') == Slot(s.assignments, s.trials[j].card.id, k')
    {
      MarkedSlots(s, id, k, run, node, s.trials[j].card.id, k');
    }
    StaysClean(s.cfg, s.assignments, r.assignments, s.trials[j], s.trials[j]);
  }

  // complete_evidence_only_trial and fail_matched_control

  lemma ClosedSlots(s: Study, i: nat, node: string, why: string, ok: bool, id: string, k: Key)
    requires i < |s.trials|
    ensures var before, after :=
        Slot(s.assignments, id, k), Slot(CompleteEvidenceOnly(s, i, node, why, ok).assignments, id, k);
      if id == s.trials[i].card.id && before.Some? && Outstanding(before.value) then
        after.Some? && Consumed(after.value)
      else after == before
  {
    FindKeySame(s.assignments, CompleteEvidenceOnly(s, i, node, why, ok).assignments, id, k);
  }

  lemma CompletedClean(s: Study, i: nat, node: string, why: string, ok: bool, j: nat)
    requires AllClean(s) && i < |s.trials| && j < |s.trials|
    ensures var r := CompleteEvidenceOnly(s, i, node, why, ok); Clean(s.cfg, r.assignments, r.trials[j])
  {
    hide Lookup, Legal, Slot;
    var t, r := s.trials[j], CompleteEvidenceOnly(s, i, node, why, ok);
    assert Clean(s.cfg, s.assignments, t);
    assert t.card.id == s.trials[i].card.id ==> i == j;
    forall k: Key
      ensures LegalSlot(s.cfg, r.assignments, t.card.id, k)
      ensures !(j == i && Open(r.assignments, t.card.id, k))
      ensures j != i ==> Slot(r.assignments, t.card.id, k) == Slot(s.assignments, t.card.id, k)
    {
      ClosedSlots(s, i, node, why, ok, t.card.id, k);
      assert LegalSlot(s.cfg, s.assignments, t.card.id, k);
    }
    if j != i {
      StaysClean(s.cfg, s.assignments, r.assignments, t, r.trials[j]);
    }
  }

  lemma CompleteKeepsClean(s: Study, i: nat, node: string, why: string, ok: bool)
    requires AllClean(s) && i < |s.trials|
    ensures AllClean(CompleteEvidenceOnly(s, i, node, why, ok))
  {
    hide Clean;
    CompleteKeepsValid(s, i, node, why, ok);
    var r := CompleteEvidenceOnly(s, i, node, why, ok);
    forall j | 0 <= j < |s.trials| ensures Clean(s.cfg, r.assignments, r.trials[j]) {
      CompletedClean(s, i, node, why, ok, j);
    }
  }

  lemma FailControlKeepsClean(s: Study, protocol: string, cause: string)
    requires AllClean(s)
    ensures AllClean(FailMatchedControl(s, protocol, cause))
  {
    FailControlKeepsValid(s, protocol, cause);
    var r := FailMatchedControl(s, protocol, cause);
    forall j | 0 <= j < |s.trials| ensures Clean(r.cfg, r.assignments, r.trials[j]) {
      StaysClean(s.cfg, s.assignments, r.assignments, s.trials[j], r.trials[j]);
    }
  }

  // Whole sequences of calls

  /** A call leaves every trial clean exactly when it is not one of the reopening calls. */
  lemma CallKeepsCleanExactly(s: Study, c: Call)
    requires AllClean(s)
    ensures AllClean(Perform(s, c)) <==> !Reopens(s, c)
  {
    hide AllClean, ReturnsToSpent, ClaimsForBurnt, BreakerFires, HasBurnt;
    hide Register, PreRegister, Report, Next, MarkRunning, CompleteEvidenceOnly, FailMatchedControl;
    match c
    case DoRegister(q) => if Register(s, q).Ok? { RegisterKeepsClean(s, q); }
    case DoPreRegister(q) => if PreRegister(s, q).Ok? { PreRegisterKeepsClean(s, q); }
    case DoReport(i, o) => if i < |s.trials| { ReportKeepsClean(s, i, o); }
    case DoNext(confirm) => NextKeepsClean(s, confirm);
    case DoMark(id, k, run, node) =>
      if MarkRunning(s, id, k, run, node).Ok? {
        MarkKeepsClean(s, id, k, run, node);
      } else {
        RefusedClaim(s, id, k, run, node);
      }
    case DoComplete(i, node, why, ok) => if i < |s.trials| { CompleteKeepsClean(s, i, node, why, ok); }
    case DoFailControl(protocol, cause) => FailControlKeepsClean(s, protocol, cause);
  }

  lemma RefusedClaim(s: Study, id: string, k: Key, run: Option<string>, node: Option<string>)
    requires MarkRunning(s, id, k, run, node).Err?
    ensures !ClaimsForBurnt(s, id, k)
  {
  }

  ghost predicate NeverReopens(s: Study, cs: seq<Call>)
    decreases |cs|
  {
    cs == [] || (!Reopens(s, cs[0]) && NeverReopens(Perform(s, cs[0]), cs[1..]))
  }

  lemma {:induction false} CallsKeepClean(s: Study, cs: seq<Call>)
    requires AllClean(s) && NeverReopens(s, cs)
    ensures AllClean(Performed(s, cs))
    decreases |cs|
  {
    hide AllClean, Perform, Reopens;
    if cs != [] {
      CallKeepsCleanExactly(s, cs[0]);
      CallsKeepClean(Perform(s, cs[0]), cs[1..]);
    }
  }

  /**
    From an empty study, whatever is called in whatever order: as long as no call is one of the reopening
    ones, next_assignment never returns a consumed assignment.
    */
  lemma ConsumedStaysConsumed(cfg: Config, cs: seq<Call>, confirm: bool)
    requires NeverReopens(EmptyStudy(cfg), cs)
    ensures var a := Next(Performed(EmptyStudy(cfg), cs), confirm).1; a.Some? ==> !Consumed(a.value.status)
  {
    CallsKeepClean(EmptyStudy(cfg), cs);
    NextKeepsClean(Performed(EmptyStudy(cfg), cs), confirm);
  }

  // The two causes, one call at a time

  /**
    From any valid study, a registration that falls on a known trial leaves it waiting with its next key
    consumed if and only if the circuit breaker does not fire, pilot_3 is consumed without an observation,
    and the trial is a reservation or was queued for pilot_3 before.
    */
  lemma RegisterSpendsExactly(s: Study, q: Request, confirm: bool)
    requires Valid(s) && Register(s, q).Ok? && Register(s, q).value.1 < |s.trials|
    ensures var r := Register(s, q).value;
      var t := s.trials[r.1];
      r.0.trials[r.1].status.Waiting? && NextKeyIsSpent(r.0, r.1, confirm) <==>
      && !BreakerFires(s, r.1, q) && Burnt(s.assignments, t, P3)
      && (IsPreRegistered(t) || (t.status.Waiting? && t.pending == Some(Pilot3)))
  {
    hide BreakerFires, Valid, Lookup;
    RegisterKeepsValid(s, q);
    RegisteredTrial(s, q);
    hide Register;
  }

  /** The same on a clean study, where nobody is queued for a consumed key yet: only a reservation can be. */
  lemma ReservationSpendsExactly(s: Study, q: Request, confirm: bool)
    requires AllClean(s) && Register(s, q).Ok? && Register(s, q).value.1 < |s.trials|
    ensures var r := Register(s, q).value;
      r.0.trials[r.1].status.Waiting? && NextKeyIsSpent(r.0, r.1, confirm) <==>
      IsPreRegistered(s.trials[r.1]) && Burnt(s.assignments, s.trials[r.1], P3) && !BreakerFires(s, r.1, q)
  {
    hide BreakerFires, Valid, Lookup;
    RegisterSpendsExactly(s, q, confirm);
    hide Register;
    var t := s.trials[Register(s, q).value.1];
    assert Clean(s.cfg, s.assignments, t);
    if Burnt(s.assignments, t, P3) {
      assert OffLadder(t);
    }
  }

  lemma ReportFinishes(s: Study, i: nat, o: Observation)
    requires i < |s.trials|
    ensures Report(s, i, o).assignments == FinishAssignment(s.assignments, s.trials[i].card.id, o)
  {
  }

  /** pilot_10 evidence refreshes nothing, and its trial is closed, asked for evidence, or waits for full seed 1. */
  lemma LandedFromPilot10(s: Study, i: nat, o: Observation)
    requires i < |s.trials| && o.key.stage.Pilot10?
    ensures var r := Report(s, i, o).trials[i];
      && r == Landed(s.cfg, s.trials[i], o) && r.card == s.trials[i].card
      && (r.status.FullPendingConfirmation? || r.status.Failed? || r.status.Eliminated? || r.status.NeedsEvidence?)
  {
    hide Record, Lookup, GuardPilot10, FinishAssignment;
  }

  /**
    From any valid study, pilot_10 evidence leaves the next key consumed exactly when it passes into a
    full seed 1 that has been consumed.
    */
  lemma Pilot10SpendsExactly(s: Study, i: nat, o: Observation)
    requires Valid(s) && i < |s.trials| && o.key.stage.Pilot10?
    ensures NextKeyIsSpent(Report(s, i, o), i, true) <==> PassesIntoSpent(s, i, o)
  {
    hide Record, Lookup, GuardPilot10, Slot, Settle, Landed, Report;
    var t, r := s.trials[i], Report(s, i, o);
    LandedFromPilot10(s, i, o);
    LandedStatus(s.cfg, t, o);
    FinishedSlots(s.assignments, t.card.id, o, t.card.id, FULL1);
    assert r.assignments == FinishAssignment(s.assignments, t.card.id, o) by { ReportFinishes(s, i, o); }
  }

  /** In a disciplined study, reporting a trial's own pilot_10 evidence again after full seed 1 always does. */
  lemma RepeatedPilot10Spends(s: Study, i: nat)
    requires Inv(s) && i < |s.trials| && Spent(s.assignments, s.trials[i].card.id, FULL1)
    ensures At(s.trials[i], P10).Some?
    ensures var o := Observation(P10, At(s.trials[i], P10).value);
      !MayReport(s, i, o) && NextKeyIsSpent(Report(s, i, o), i, true)
  {
    hide Report, Slot, Guard, GuardFullSeed1;
    var t := s.trials[i];
    assert TrialInv(s.cfg, s.assignments, t);
    assert KeyOk(s.cfg, s.assignments, t, FULL1);
    var o := Observation(P10, At(t, P10).value);
    assert KeyOk(s.cfg, s.assignments, t, P10);
    Pilot10SpendsExactly(s, i, o);
    assert At(t, FULL1).Some?;
  }
}
