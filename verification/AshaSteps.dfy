/** Every disciplined step keeps the ladder invariant. */
module AshaSteps {
  import opened Options
  import opened AshaTypes
  import opened Promotion
  import opened AshaSpec
  import opened AshaBookkeeping
  import opened AshaLadder

  // report

  lemma FinishedSlots(asgs: seq<Assignment>, id: string, o: Observation, id': string, k: Key)
    requires UniqueAssignments(asgs)
    ensures var after := Slot(FinishAssignment(asgs, id, o), id', k);
      if id' == id && k == o.key && Slot(asgs, id, k).Some? then after.Some? && Consumed(after.value)
      else after == Slot(asgs, id', k)
  {
    match FindKey(asgs, id, o.key)
    case None =>
    case Some(j) =>
      SlotUpdate(asgs, j, FinishAssignment(asgs, id, o)[j], id', k);
  }

  /** After its report, a trial at rest at r has exactly the slots its evidence accounts for. */
  lemma ReportedSlots(cfg: Config, asgs: seq<Assignment>, t: Trial, o: Observation, r: Trial)
    requires UniqueAssignments(asgs)
    requires TrialInv(cfg, asgs, t) && Due(cfg, asgs, t, o.key)
    requires r.card == t.card && r.observations == Record(t.observations, o)
    ensures forall k: Key :: KeyOk(cfg, FinishAssignment(asgs, t.card.id, o), r, k)
  {
    RecordedRungs(cfg, t, o);
    var rec := Recorded(t, o);
    forall k: Key ensures KeyOk(cfg, FinishAssignment(asgs, t.card.id, o), r, k) {
      FinishedSlots(asgs, t.card.id, o, t.card.id, k);
      RecordLookup(t.observations, o, k);
      assert KeyOk(cfg, asgs, t, k);
      SameEvidence(cfg, rec, r, o.key.stage);
      if Slot(asgs, t.card.id, k).Some? && k != o.key {
        assert At(t, k).Some?;
        assert Rung(k.stage) <= Rung(o.key.stage);
      }
    }
  }

  /** Promotion leaves a trial in the invariant: it was at rest, so no allocation is open for it. */
  lemma PromotedKeeps(cfg: Config, asgs: seq<Assignment>, t: Trial)
    requires TrialInv(cfg, asgs, t) && Promotable(t) && Measured(t)
    ensures TrialInv(cfg, asgs, Promote(t)) && t.pending == None
  {
    PromotedClimbs(cfg, t);
    var r := Promote(t);
    forall k: Key ensures KeyOk(cfg, asgs, r, k) {
      assert KeyOk(cfg, asgs, t, k);
      SameEvidence(cfg, t, r, k.stage);
    }
  }

  lemma ReportedTrialKeeps(s: Study, i: nat, o: Observation)
    requires Inv(s) && i < |s.trials| && MayReport(s, i, o)
    ensures var r := Report(s, i, o); TrialInv(s.cfg, r.assignments, r.trials[i])
  {
    var t := s.trials[i];
    assert TrialInv(s.cfg, s.assignments, t);
    ReportIsDue(s, i, o);
    RecordedRungs(s.cfg, t, o);
    var settled := Settle(s.cfg, Recorded(t, o), o);
    SettleFits(s.cfg, Recorded(t, o), o);
    SettledClimbs(s.cfg, Recorded(t, o), o);
    var screened := Screen(s.cfg, settled);
    var asgs := FinishAssignment(s.assignments, t.card.id, o);
    ReportedSlots(s.cfg, s.assignments, t, o, screened);
    assert Screen(s.cfg, screened) == screened;
    assert TrialInv(s.cfg, asgs, screened);
    if Refreshes(o) {
      RefreshAt(s.cfg, s.trials[i := settled], i);
      if Promotable(screened) && Measured(screened) {
        PromotedKeeps(s.cfg, asgs, screened);
      }
    }
  }

  /** A report moves another trial only from rest after pilot_3 to a pending promotion. */
  lemma ReportElsewhere(s: Study, i: nat, o: Observation, j: nat)
    requires Inv(s) && i < |s.trials| && j < |s.trials| && j != i
    ensures var t, r := s.trials[j], Report(s, i, o).trials[j];
      || r == t
      || (&& Refreshes(o) && r == Promote(t) && Promotable(t) && Measured(t)
          && t.status.Waiting? && t.pending == None && Passed(s.cfg, t, Pilot3))
  {
    var t := s.trials[j];
    assert TrialInv(s.cfg, s.assignments, t);
    if Refreshes(o) {
      RefreshAt(s.cfg, s.trials[i := Settle(s.cfg, Recorded(s.trials[i], o), o)], j);
      if Promotable(t) && Measured(t) {
        PromotedClimbs(s.cfg, t);
      }
    }
  }

  lemma OtherTrialKeeps(s: Study, i: nat, o: Observation, j: nat)
    requires Inv(s) && i < |s.trials| && j < |s.trials| && j != i
    ensures var r := Report(s, i, o); TrialInv(s.cfg, r.assignments, r.trials[j])
  {
    var t, asgs := s.trials[j], FinishAssignment(s.assignments, s.trials[i].card.id, o);
    assert TrialInv(s.cfg, s.assignments, t);
    assert t.card.id != s.trials[i].card.id;
    forall k: Key ensures Slot(asgs, t.card.id, k) == Slot(s.assignments, t.card.id, k) {
      FinishedSlots(s.assignments, s.trials[i].card.id, o, t.card.id, k);
    }
    TrialInvFrame(s.cfg, s.assignments, asgs, t);
    ReportElsewhere(s, i, o, j);
    if Promotable(t) && Measured(t) {
      PromotedKeeps(s.cfg, asgs, t);
    }
  }

  lemma ReportKeepsInv(s: Study, i: nat, o: Observation)
    requires Inv(s) && i < |s.trials| && MayReport(s, i, o)
    ensures Inv(Report(s, i, o))
  {
    ReportKeepsValid(s, i, o);
    forall j | 0 <= j < |s.trials|
      ensures TrialInv(s.cfg, Report(s, i, o).assignments, Report(s, i, o).trials[j])
    {
      if j == i {
        ReportedTrialKeeps(s, i, o);
      } else {
        OtherTrialKeeps(s, i, o, j);
      }
    }
  }

  // next_assignment: native work makes way

  lemma DeferredSlot(s: Study, i: nat, k: Key)
    requires Valid(s) && i < |s.trials|
    ensures var t := s.trials[i];
      var before, after := Slot(s.assignments, t.card.id, k), Slot(DeferNative(s).assignments, t.card.id, k);
      after == if before.Some? && Outstanding(before.value) && !t.card.paper then Some(Deferred) else before
  {
    var t := s.trials[i];
    FindKeySame(s.assignments, DeferNative(s).assignments, t.card.id, k);
    FindFirst(s.trials, i);
  }

  predicate OutstandingAt(a: Assignment, id: string, st: Stage) {
    a.trialId == id && Outstanding(a.status) && a.key.stage == st
  }

  lemma {:induction false} LastOutstandingSlot(asgs: seq<Assignment>, id: string)
    requires LastOutstanding(asgs, id).Some?
    ensures exists j :: 0 <= j < |asgs| && OutstandingAt(asgs[j], id, LastOutstanding(asgs, id).value)
  {
    var n := |asgs| - 1;
    if !(asgs[n].trialId == id && Outstanding(asgs[n].status)) {
      LastOutstandingSlot(asgs[..n], id);
      var j :| 0 <= j < n && OutstandingAt(asgs[..n][j], id, LastOutstanding(asgs, id).value);
      assert asgs[j] == asgs[..n][j];
    }
  }

  /** A trial is outstanding at most at the stage it stands at. */
  lemma OutstandingStage(s: Study, i: nat)
    requires Inv(s) && i < |s.trials| && LastOutstanding(s.assignments, s.trials[i].card.id).Some?
    ensures var t := s.trials[i];
      var st := LastOutstanding(s.assignments, t.card.id).value;
      Awaits(s.cfg, t, st) && t.pending == Some(st) && (ParkedAt(t, st) || RunsAt(t, st))
  {
    var t := s.trials[i];
    LastOutstandingSlot(s.assignments, t.card.id);
    var j :| 0 <= j < |s.assignments|
      && OutstandingAt(s.assignments[j], t.card.id, LastOutstanding(s.assignments, t.card.id).value);
    SlotOf(s.assignments, j);
    OpenSlot(s.cfg, s.assignments, t, s.assignments[j].key);
  }

  /** A paper trial, or one with nothing outstanding, does not notice the deferral. */
  lemma UndeferredTrialKeeps(s: Study, i: nat)
    requires Inv(s) && i < |s.trials|
    requires s.trials[i].card.paper || LastOutstanding(s.assignments, s.trials[i].card.id).None?
    ensures TrialInv(s.cfg, DeferNative(s).assignments, DeferNative(s).trials[i])
  {
    var t, asgs := s.trials[i], DeferNative(s).assignments;
    assert DeferNative(s).trials[i] == DeferTrial(s.assignments, t) == t;
    LastOutstandingNone(s.assignments, t.card.id);
    forall k: Key ensures Slot(asgs, t.card.id, k) == Slot(s.assignments, t.card.id, k) {
      DeferredSlot(s, i, k);
    }
    TrialInvFrame(s.cfg, s.assignments, asgs, t);
  }

  lemma DeferredKeyOk(s: Study, i: nat, k: Key)
    requires Inv(s) && i < |s.trials|
    requires !s.trials[i].card.paper && LastOutstanding(s.assignments, s.trials[i].card.id).Some?
    ensures KeyOk(s.cfg, DeferNative(s).assignments, DeferTrial(s.assignments, s.trials[i]), k)
  {
    var t := s.trials[i];
    assert TrialInv(s.cfg, s.assignments, t);
    assert KeyOk(s.cfg, s.assignments, t, k);
    OutstandingStage(s, i);
    DeferredSlot(s, i, k);
    if Slot(s.assignments, t.card.id, k).Some? && !Consumed(Slot(s.assignments, t.card.id, k).value) {
      OpenSlot(s.cfg, s.assignments, t, k);
    }
    ParkedKeyOk(s.cfg, s.assignments, DeferNative(s).assignments, t, DeferTrial(s.assignments, t), k);
  }

  /** Parking a trial keeps what each record says about it. */
  lemma ParkedKeyOk(cfg: Config, asgs: seq<Assignment>, asgs': seq<Assignment>, t: Trial, r: Trial, k: Key)
    requires KeyOk(cfg, asgs, t, k) && r.card == t.card && r.observations == t.observations
    requires var before, after := Slot(asgs, t.card.id, k), Slot(asgs', t.card.id, k);
      && after == (if before.Some? && Outstanding(before.value) then Some(Deferred) else before)
      && (before.Some? && !Consumed(before.value) ==> ParkedAt(r, k.stage))
    ensures KeyOk(cfg, asgs', r, k)
  {
    SameEvidence(cfg, t, r, k.stage);
  }

  lemma DeferredTrialKeeps(s: Study, i: nat)
    requires Inv(s) && i < |s.trials|
    ensures TrialInv(s.cfg, DeferNative(s).assignments, DeferNative(s).trials[i])
  {
    var t := s.trials[i];
    if t.card.paper || LastOutstanding(s.assignments, t.card.id).None? {
      UndeferredTrialKeeps(s, i);
    } else {
      var r := DeferTrial(s.assignments, t);
      assert DeferNative(s).trials[i] == r;
      OutstandingStage(s, i);
      var st := LastOutstanding(s.assignments, t.card.id).value;
      SameEvidence(s.cfg, t, r, st);
      forall k: Key ensures KeyOk(s.cfg, DeferNative(s).assignments, r, k) {
        DeferredKeyOk(s, i, k);
      }
      DeferredScreen(s.cfg, t, r, st);
    }
  }

  lemma DeferredScreen(cfg: Config, t: Trial, r: Trial, st: Stage)
    requires Awaits(cfg, t, st) && r.card == t.card && r.observations == t.observations
    ensures Screen(cfg, r) == r
  {
    SameEvidence(cfg, t, r, Pilot3);
    if st.Pilot3? {
      assert At(r, P3).None?;
    } else {
      ScreenPassed(cfg, r);
    }
  }

  lemma YieldedKeepsInv(s: Study, confirm: bool)
    requires Inv(s)
    ensures Inv(Yielded(s, confirm))
  {
    YieldedKeepsValid(s, confirm);
    if PaperPending(s.trials, confirm) {
      forall i | 0 <= i < |s.trials|
        ensures TrialInv(s.cfg, DeferNative(s).assignments, DeferNative(s).trials[i])
      {
        DeferredTrialKeeps(s, i);
      }
    }
  }

  // next_assignment: an allocation is handed out

  /** The ladder offers a trial the next key of the stage it is parked at, and that key is untrained. */
  lemma ChoiceIsParked(cfg: Config, asgs: seq<Assignment>, t: Trial, confirm: bool)
    requires TrialInv(cfg, asgs, t) && PendingFits(t) && Choice(cfg, t, confirm).Some?
    ensures var k := Choice(cfg, t, confirm).value;
      && ParkedAt(t, k.stage) && Awaits(cfg, t, k.stage)
      && k == NextKey(cfg, t, k.stage) && Legal(cfg, k) && At(t, k).None?
  {
  }

  lemma IssuedSlots(s: Study, i: nat, k: Key, id: string, k': Key)
    requires Valid(s) && i < |s.trials| && 1 <= k.seed <= |s.cfg.seeds|
    ensures var before := Slot(s.assignments, s.trials[i].card.id, k);
      Slot(Issue(s, i, k).0.assignments, id, k') ==
      if id == s.trials[i].card.id && k' == k && (before.None? || before.value.Deferred?) then Some(Issued)
      else Slot(s.assignments, id, k')
  {
    match FindKey(s.assignments, s.trials[i].card.id, k)
    case Some(j) => SlotUpdate(s.assignments, j, Reissued(s.assignments[j]), id, k');
    case None => SlotAppend(s.assignments, NewAssignment(s, s.trials[i], k), id, k');
  }

  lemma IssueKeepsInv(s: Study, i: nat, confirm: bool)
    requires Inv(s) && i < |s.trials| && Choice(s.cfg, s.trials[i], confirm).Some?
    requires forall j :: 0 <= j < |s.assignments| && Outstanding(s.assignments[j].status) ==>
      IsFull(s.assignments[j].key.stage) != IsFull(Choice(s.cfg, s.trials[i], confirm).value.stage)
    ensures var k := Choice(s.cfg, s.trials[i], confirm).value;
      1 <= k.seed <= |s.cfg.seeds| && Inv(Issue(s, i, k).0)
  {
    var t := s.trials[i];
    assert TrialInv(s.cfg, s.assignments, t);
    assert TrialOk(s.assignments, t);
    ChoiceIsParked(s.cfg, s.assignments, t, confirm);
    ChoiceSeed(s.cfg, t, confirm);
    var k := Choice(s.cfg, t, confirm).value;
    var asgs := Issue(s, i, k).0.assignments;
    IssueKeepsValid(s, i, k);
    IssueKeepsSingle(s, i, k);
    forall j | 0 <= j < |s.trials| ensures TrialInv(s.cfg, asgs, s.trials[j]) {
      IssuedTrialKeeps(s, i, k, j);
    }
  }

  /** Issuing the next key of a parked trial keeps what the records say about every trial. */
  lemma IssuedTrialKeeps(s: Study, i: nat, k: Key, j: nat)
    requires Inv(s) && i < |s.trials| && j < |s.trials| && 1 <= k.seed <= |s.cfg.seeds|
    requires var t := s.trials[i];
      ParkedAt(t, k.stage) && Awaits(s.cfg, t, k.stage) && k == NextKey(s.cfg, t, k.stage)
      && Legal(s.cfg, k) && At(t, k).None?
    ensures TrialInv(s.cfg, Issue(s, i, k).0.assignments, s.trials[j])
  {
    var r, asgs := s.trials[j], Issue(s, i, k).0.assignments;
    assert TrialInv(s.cfg, s.assignments, r);
    if j < i {
      assert r.card.id != s.trials[i].card.id;
    }
    forall k': Key ensures KeyOk(s.cfg, asgs, r, k') {
      assert KeyOk(s.cfg, s.assignments, r, k');
      IssuedSlots(s, i, k, r.card.id, k');
      IssuedKeyOk(s.cfg, s.assignments, asgs, r, k', r.card.id == s.trials[i].card.id && k' == k);
    }
  }

  /** A record that is now issued is one its parked trial is to train next. */
  lemma IssuedKeyOk(cfg: Config, asgs: seq<Assignment>, asgs': seq<Assignment>, t: Trial, k: Key, issued: bool)
    requires KeyOk(cfg, asgs, t, k)
    requires var before, after := Slot(asgs, t.card.id, k), Slot(asgs', t.card.id, k);
      after == if issued && (before.None? || before.value.Deferred?) then Some(Issued) else before
    requires issued ==> ParkedAt(t, k.stage) && Before(cfg, t, k.stage) && k == NextKey(cfg, t, k.stage)
    requires issued ==> Legal(cfg, k) && At(t, k).None?
    ensures KeyOk(cfg, asgs', t, k)
  {
  }

  lemma NextKeepsInv(s: Study, confirm: bool)
    requires Inv(s)
    ensures Inv(Next(s, confirm).0)
  {
    var y, p := Yielded(s, confirm), PaperPending(s.trials, confirm);
    YieldedKeepsInv(s, confirm);
    if Recoverable(y.trials, y.assignments, confirm, p).None? {
      var pick := Select(y, Order(y.trials, p), confirm);
      if pick.Some? {
        ChoiceSeed(y.cfg, y.trials[pick.value], confirm);
        NothingOutstanding(s, confirm);
        IssueKeepsInv(y, pick.value, confirm);
      }
    }
  }

  // mark_running

  lemma MarkedSlots(s: Study, id: string, k: Key, run: Option<string>, node: Option<string>, id': string, k': Key)
    requires Valid(s) && MarkRunning(s, id, k, run, node).Ok?
    ensures Slot(MarkRunning(s, id, k, run, node).value.assignments, id', k') ==
      if id' == id && k' == k then Some(AssignmentStatus.Running) else Slot(s.assignments, id', k')
  {
    var j := FindKey(s.assignments, id, k).value;
    SlotUpdate(s.assignments, j, MarkRunning(s, id, k, run, node).value.assignments[j], id', k');
  }

  lemma MarkedTrialKeeps(cfg: Config, asgs: seq<Assignment>, asgs': seq<Assignment>, t: Trial, k: Key)
    requires TrialInv(cfg, asgs, t)
    requires Slot(asgs, t.card.id, k).Some? && !Consumed(Slot(asgs, t.card.id, k).value)
    requires forall k': Key ::
      Slot(asgs', t.card.id, k') == if k' == k then Some(AssignmentStatus.Running) else Slot(asgs, t.card.id, k')
    ensures TrialInv(cfg, asgs', t.(status := TrialStatus.Running, pending := Some(k.stage)))
  {
    var r := t.(status := TrialStatus.Running, pending := Some(k.stage));
    OpenSlot(cfg, asgs, t, k);
    SameEvidence(cfg, t, r, k.stage);
    DeferredScreen(cfg, t, r, k.stage);
    forall k': Key ensures KeyOk(cfg, asgs', r, k') {
      assert KeyOk(cfg, asgs, t, k');
      SameEvidence(cfg, t, r, k'.stage);
      if k' != k && Slot(asgs, t.card.id, k').Some? && !Consumed(Slot(asgs, t.card.id, k').value) {
        OneOpenSlot(cfg, asgs, t, k, k');
      }
    }
  }

  lemma MarkKeepsInv(s: Study, id: string, k: Key, run: Option<string>, node: Option<string>)
    requires Inv(s)
    requires Slot(s.assignments, id, k).Some? && Outstanding(Slot(s.assignments, id, k).value)
    requires MarkRunning(s, id, k, run, node).Ok?
    ensures Inv(MarkRunning(s, id, k, run, node).value)
  {
    var r := MarkRunning(s, id, k, run, node).value;
    var i := Find(s.trials, id).value;
    MarkKeepsValid(s, id, k, run, node);
    forall m | 0 <= m < |s.trials| ensures TrialInv(s.cfg, r.assignments, r.trials[m]) {
      var t := s.trials[m];
      assert TrialInv(s.cfg, s.assignments, t);
      forall k': Key ensures Slot(r.assignments, t.card.id, k') ==
        if t.card.id == id && k' == k then Some(AssignmentStatus.Running) else Slot(s.assignments, t.card.id, k')
      {
        MarkedSlots(s, id, k, run, node, t.card.id, k');
      }
      FindFirst(s.trials, m);
      if m == i {
        MarkedTrialKeeps(s.cfg, s.assignments, r.assignments, t, k);
      } else {
        TrialInvFrame(s.cfg, s.assignments, r.assignments, t);
      }
    }
  }
}
