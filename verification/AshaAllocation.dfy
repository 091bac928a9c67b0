/** What next_assignment may hand out: stability, pre-emption without loss, and quiescence. */
module AshaAllocation {
  import opened Options
  import opened AshaTypes
  import opened Promotion
  import opened AshaSpec
  import opened AshaBookkeeping
  import opened AshaLadder
  import opened AshaSteps
  import opened AshaRuns

  // Asking twice

  /** Deferral has nothing to do: every outstanding assignment is a paper one. */
  ghost predicate Quiet(y: Study) {
    forall j :: 0 <= j < |y.assignments| && Outstanding(y.assignments[j].status) ==>
      IsPaperId(y.trials, y.assignments[j].trialId)
  }

  lemma QuietTrial(y: Study, i: nat)
    requires Valid(y) && Quiet(y) && i < |y.trials|
    ensures DeferTrial(y.assignments, y.trials[i]) == y.trials[i]
  {
    FindFirst(y.trials, i);
    LastOutstandingNone(y.assignments, y.trials[i].card.id);
  }

  lemma QuietIsFixed(y: Study)
    requires Valid(y) && Quiet(y)
    ensures DeferNative(y) == y
  {
    assert DeferNative(y).assignments == y.assignments;
    forall i | 0 <= i < |y.trials| ensures DeferNative(y).trials[i] == y.trials[i] {
      QuietTrial(y, i);
    }
    assert DeferNative(y).trials == y.trials;
  }

  lemma PendingAfterYield(s: Study, confirm: bool)
    requires Valid(s)
    ensures PaperPending(Yielded(s, confirm).trials, confirm) == PaperPending(s.trials, confirm)
  {
    if PaperPending(s.trials, confirm) {
      var i :| 0 <= i < |s.trials| && s.trials[i].card.paper && RunnableStatus(s.trials[i].status, confirm);
      assert Yielded(s, confirm).trials[i] == DeferTrial(s.assignments, s.trials[i]);
    }
  }

  /** With a single record that can be recovered, it is the one recovered. */
  lemma {:induction false} RecoverOnly(trials: seq<Trial>, asgs: seq<Assignment>,
                                       confirm: bool, paperOnly: bool, j: nat)
    requires j < |asgs| && CanRecover(trials, asgs[j], confirm, paperOnly)
    requires forall m :: 0 <= m < |asgs| && m != j ==> !CanRecover(trials, asgs[m], confirm, paperOnly)
    ensures Recoverable(trials, asgs, confirm, paperOnly) == Some(asgs[j])
  {
    if j > 0 {
      RecoverOnly(trials, asgs[1..], confirm, paperOnly, j - 1);
    }
  }

  /** What was just issued is what a second call recovers. */
  lemma IssuedIsRecovered(y: Study, i: nat, k: Key, confirm: bool, paperOnly: bool)
    requires Valid(y) && i < |y.trials| && 1 <= k.seed <= |y.cfg.seeds|
    requires Recoverable(y.trials, y.assignments, confirm, paperOnly).None?
    requires IsFull(k.stage) ==> confirm
    requires paperOnly ==> y.trials[i].card.paper
    ensures var r := Issue(y, i, k);
      Recoverable(y.trials, r.0.assignments, confirm, paperOnly) == Some(r.1) || r.0 == y
  {
    var r := Issue(y, i, k);
    RecoverableNone(y.trials, y.assignments, confirm, paperOnly);
    FindFirst(y.trials, i);
    match FindKey(y.assignments, y.trials[i].card.id, k)
    case Some(j) =>
      if y.assignments[j].status.Deferred? {
        RecoverOnly(y.trials, r.0.assignments, confirm, paperOnly, j);
      } else {
        assert r.0.assignments == y.assignments;
      }
    case None =>
      RecoverOnly(y.trials, r.0.assignments, confirm, paperOnly, |y.assignments|);
  }

  lemma OrderInScope(trials: seq<Trial>, paperOnly: bool)
    ensures forall i <- Order(trials, paperOnly) :: i < |trials| && (paperOnly ==> trials[i].card.paper)
    ensures forall i :: 0 <= i < |trials| && (paperOnly ==> trials[i].card.paper) ==> i in Order(trials, paperOnly)
  {
  }

  lemma GrantIsStable(y: Study, confirm: bool, paperOnly: bool)
    requires Valid(y)
    ensures Grant(Grant(y, confirm, paperOnly).0, confirm, paperOnly) == Grant(y, confirm, paperOnly)
    ensures Grant(y, confirm, paperOnly).0.trials == y.trials
    ensures Valid(Grant(y, confirm, paperOnly).0)
  {
    if Recoverable(y.trials, y.assignments, confirm, paperOnly).None? {
      OrderInScope(y.trials, paperOnly);
      var pick := Select(y, Order(y.trials, paperOnly), confirm);
      if pick.Some? {
        var k := Choice(y.cfg, y.trials[pick.value], confirm).value;
        ChoiceSeed(y.cfg, y.trials[pick.value], confirm);
        IssuedIsRecovered(y, pick.value, k, confirm, paperOnly);
        IssueKeepsValid(y, pick.value, k);
      }
    }
  }

  lemma GrantKeepsQuiet(y: Study, confirm: bool)
    requires Valid(y) && Quiet(y)
    ensures Quiet(Grant(y, confirm, true).0)
  {
    if Recoverable(y.trials, y.assignments, confirm, true).None? {
      OrderInScope(y.trials, true);
      var pick := Select(y, Order(y.trials, true), confirm);
      if pick.Some? {
        ChoiceSeed(y.cfg, y.trials[pick.value], confirm);
        IssueKeepsQuiet(y, pick.value, Choice(y.cfg, y.trials[pick.value], confirm).value);
      }
    }
  }

  lemma IssueKeepsQuiet(y: Study, i: nat, k: Key)
    requires Valid(y) && Quiet(y) && i < |y.trials| && 1 <= k.seed <= |y.cfg.seeds| && y.trials[i].card.paper
    ensures Quiet(Issue(y, i, k).0)
  {
    FindFirst(y.trials, i);
  }

  /**
    Asking again with the same flag returns the same assignment and leaves the study as it is, from
    every valid state: a driver that crashed before claiming loses nothing by asking again.
    */
  lemma NextIsStable(s: Study, confirm: bool)
    requires Valid(s)
    ensures Next(Next(s, confirm).0, confirm) == Next(s, confirm)
  {
    var y, p := Yielded(s, confirm), PaperPending(s.trials, confirm);
    YieldedKeepsValid(s, confirm);
    PendingAfterYield(s, confirm);
    GrantIsStable(y, confirm, p);
    var r := Grant(y, confirm, p).0;
    assert PaperPending(r.trials, confirm) == p;
    if p {
      YieldedIsPaper(s, confirm);
      GrantKeepsQuiet(y, confirm);
      QuietIsFixed(r);
    }
    assert Yielded(r, confirm) == r;
  }

  /** Without full-run authorization no candidate_full assignment is returned. */
  lemma NoFullReturned(s: Study)
    ensures Next(s, false).1.Some? ==> !IsFull(Next(s, false).1.value.key.stage)
  {
    var y, p := Yielded(s, false), PaperPending(s.trials, false);
    if Recoverable(y.trials, y.assignments, false, p).None? {
      var pick := Select(y, Order(y.trials, p), false);
      if pick.Some? {
        ChoiceSeed(y.cfg, y.trials[pick.value], false);
      }
    }
  }

  /** Nor is one created. */
  lemma NoFullCreated(s: Study, id: string, k: Key)
    requires IsFull(k.stage) && FindKey(s.assignments, id, k).None?
    ensures FindKey(Next(s, false).0.assignments, id, k).None?
  {
    var y, p := Yielded(s, false), PaperPending(s.trials, false);
    assert SameKeys(s.assignments, y.assignments);
    FindKeySame(s.assignments, y.assignments, id, k);
    if Recoverable(y.trials, y.assignments, false, p).None? {
      var pick := Select(y, Order(y.trials, p), false);
      if pick.Some? {
        ChoiceSeed(y.cfg, y.trials[pick.value], false);
        IssueCreatesOnly(y, pick.value, Choice(y.cfg, y.trials[pick.value], false).value, id, k);
      }
    }
  }

  lemma IssueCreatesOnly(y: Study, i: nat, k: Key, id: string, k': Key)
    requires i < |y.trials| && 1 <= k.seed <= |y.cfg.seeds| && k' != k
    ensures FindKey(Issue(y, i, k).0.assignments, id, k') == FindKey(y.assignments, id, k')
  {
    match FindKey(y.assignments, y.trials[i].card.id, k)
    case Some(j) => FindKeySame(y.assignments, Issue(y, i, k).0.assignments, id, k');
    case None => assert Issue(y, i, k).0.assignments[..|y.assignments|] == y.assignments;
  }

  // Pre-emption

  lemma GrantsPaper(y: Study, confirm: bool)
    requires UniqueIds(y.trials) && Grant(y, confirm, true).1.Some?
    ensures IsPaperId(y.trials, Grant(y, confirm, true).1.value.trialId)
  {
    if Recoverable(y.trials, y.assignments, confirm, true).None? {
      var i := Select(y, Order(y.trials, true), confirm).value;
      OrderInScope(y.trials, true);
      ChoiceSeed(y.cfg, y.trials[i], confirm);
      FindFirst(y.trials, i);
      IssuedTo(y, i, Choice(y.cfg, y.trials[i], confirm).value);
    }
  }

  lemma IssuedTo(y: Study, i: nat, k: Key)
    requires i < |y.trials| && 1 <= k.seed <= |y.cfg.seeds|
    ensures Issue(y, i, k).1.trialId == y.trials[i].card.id
  {
  }

  /** While paper work is pending only paper assignments are handed out. */
  lemma PaperFirst(s: Study, confirm: bool)
    requires Valid(s) && PaperPending(s.trials, confirm) && Next(s, confirm).1.Some?
    ensures IsPaperId(s.trials, Next(s, confirm).1.value.trialId)
  {
    var y := Yielded(s, confirm);
    YieldedKeepsValid(s, confirm);
    GrantsPaper(y, confirm);
    YieldedCards(s, confirm);
    SamePaperIds(s.trials, y.trials, Next(s, confirm).1.value.trialId);
  }

  lemma YieldedCards(s: Study, confirm: bool)
    ensures SameCards(s.trials, Yielded(s, confirm).trials)
  {
  }

  lemma SamePaperIds(xs: seq<Trial>, ys: seq<Trial>, id: string)
    requires SameCards(xs, ys)
    ensures IsPaperId(xs, id) == IsPaperId(ys, id)
  {
    assert SameIds(xs, ys);
    FindSame(xs, ys, id);
  }

  /**
    A deferred allocation is not lost: the ladder offers its trial exactly the deferred key again, and
    issuing that key reopens the same record with its run and node bindings cleared.
    */
  lemma {:induction false} DeferredComesBack(s: Study, i: nat, k: Key, confirm: bool)
    requires Inv(s) && i < |s.trials|
    requires Slot(s.assignments, s.trials[i].card.id, k) == Some(Deferred)
    requires IsFull(k.stage) ==> confirm
    ensures Choice(s.cfg, s.trials[i], confirm) == Some(k)
    ensures 1 <= k.seed <= |s.cfg.seeds|
    ensures var j, r := FindKey(s.assignments, s.trials[i].card.id, k).value, Issue(s, i, k);
      && r.1 == s.assignments[j].(status := Issued, runId := None, nodeId := None)
      && r.0 == s.(assignments := s.assignments[j := r.1])
  {
    var t := s.trials[i];
    assert TrialInv(s.cfg, s.assignments, t);
    OpenSlot(s.cfg, s.assignments, t, k);
    assert KeyOk(s.cfg, s.assignments, t, k);
  }

  /** Whatever happens in a disciplined step, a deferred allocation stays deferred or is reissued. */
  lemma {:induction false} DeferredPersists(s: Study, e: Event, i: nat, k: Key)
    requires Inv(s) && Enabled(s, e) && i < |s.trials|
    requires Slot(s.assignments, s.trials[i].card.id, k) == Some(Deferred)
    ensures var after := Slot(Apply(s, e).assignments, s.trials[i].card.id, k);
      after == Some(Deferred) || (e.Ask? && after == Some(Issued))
  {
    var id := s.trials[i].card.id;
    match e
    case Enroll(_) =>
    case Ask(confirm) => DeferredPersistsAsk(s, confirm, i, k);
    case Claim(id', k', run, node) =>
      if MarkRunning(s, id', k', run, node).Ok? {
        MarkedSlots(s, id', k', run, node, id, k);
      }
    case Deliver(m, o) =>
      DeferredIsNotReported(s, m, o, i, k);
      FinishedSlots(s.assignments, s.trials[m].card.id, o, id, k);
  }

  lemma DeferredPersistsAsk(s: Study, confirm: bool, i: nat, k: Key)
    requires Inv(s) && i < |s.trials|
    requires Slot(s.assignments, s.trials[i].card.id, k) == Some(Deferred)
    ensures var after := Slot(Next(s, confirm).0.assignments, s.trials[i].card.id, k);
      after == Some(Deferred) || after == Some(Issued)
  {
    var id := s.trials[i].card.id;
    var y, p := Yielded(s, confirm), PaperPending(s.trials, confirm);
    if p {
      DeferredSlot(s, i, k);
    }
    assert Slot(y.assignments, id, k) == Some(Deferred);
    YieldedKeepsValid(s, confirm);
    if Recoverable(y.trials, y.assignments, confirm, p).None? {
      var pick := Select(y, Order(y.trials, p), confirm);
      if pick.Some? {
        ChoiceSeed(y.cfg, y.trials[pick.value], confirm);
        IssuedSlots(y, pick.value, Choice(y.cfg, y.trials[pick.value], confirm).value, id, k);
      }
    }
  }

  lemma {:induction false} DeferredIsNotReported(s: Study, m: nat, o: Observation, i: nat, k: Key)
    requires Inv(s) && m < |s.trials| && MayReport(s, m, o) && i < |s.trials|
    requires Slot(s.assignments, s.trials[i].card.id, k) == Some(Deferred)
    ensures s.trials[m].card.id != s.trials[i].card.id || o.key != k
  {
    assert TrialInv(s.cfg, s.assignments, s.trials[m]);
    assert KeyOk(s.cfg, s.assignments, s.trials[m], o.key);
  }

  // Quiescence

  /**
    next_assignment has nothing to offer the trial.  A waiting trial that has delivered pilot_3 counts,
    even one that is `Stranded` and would be promoted if anybody asked for a refresh.
    */
  predicate Settled(t: Trial) {
    || t.status.Confirmed? || t.status.Eliminated? || t.status.Failed? || t.status.NeedsEvidence?
    || (t.status.Waiting? && At(t, P3).Some?)
  }

  /** With full runs authorized, an unsettled trial is running or is offered its next key. */
  lemma UnsettledWantsWork(cfg: Config, asgs: seq<Assignment>, t: Trial)
    requires TrialInv(cfg, asgs, t) && TrialOk(asgs, t)
    ensures Settled(t) <==> !t.status.Running? && Choice(cfg, t, true).None?
  {
  }

  lemma OutstandingIsUnsettled(s: Study, j: nat)
    requires Inv(s) && j < |s.assignments| && Outstanding(s.assignments[j].status)
    ensures Find(s.trials, s.assignments[j].trialId).Some?
    ensures !Settled(s.trials[Find(s.trials, s.assignments[j].trialId).value])
  {
    hide Lookup, Screen, Awaits, NextKey, SingleOutstanding;
    var a := s.assignments[j];
    assert KnownAssignment(s.trials, a);
    var t := s.trials[Find(s.trials, a.trialId).value];
    assert TrialInv(s.cfg, s.assignments, t);
    SlotOf(s.assignments, j);
    OpenSlot(s.cfg, s.assignments, t, a.key);
    assert KeyOk(s.cfg, s.assignments, t, a.key);
  }

  /** Some trial in scope is running: then its running allocation is recoverable. */
  lemma RunningIsRecoverable(s: Study, i: nat, paperOnly: bool)
    requires Valid(s) && i < |s.trials| && s.trials[i].status.Running? && (paperOnly ==> s.trials[i].card.paper)
    ensures Recoverable(s.trials, s.assignments, true, paperOnly).Some?
  {
    var t := s.trials[i];
    assert TrialOk(s.assignments, t);
    var a :| a in s.assignments && Claims(a, t.card.id, t.pending.value);
    var j :| 0 <= j < |s.assignments| && s.assignments[j] == a;
    FindFirst(s.trials, i);
    assert CanRecover(s.trials, s.assignments[j], true, paperOnly);
    RecoverableNone(s.trials, s.assignments, true, paperOnly);
  }

  lemma GrantsNothingExactly(y: Study, paperOnly: bool)
    requires Inv(y)
    ensures Grant(y, true, paperOnly).1.None? <==>
      forall i :: 0 <= i < |y.trials| && (paperOnly ==> y.trials[i].card.paper) ==> Settled(y.trials[i])
  {
    OrderInScope(y.trials, paperOnly);
    if Grant(y, true, paperOnly).1.None? {
      forall i | 0 <= i < |y.trials| && (paperOnly ==> y.trials[i].card.paper) ensures Settled(y.trials[i]) {
        assert i in Order(y.trials, paperOnly);
        assert TrialInv(y.cfg, y.assignments, y.trials[i]) && TrialOk(y.assignments, y.trials[i]);
        UnsettledWantsWork(y.cfg, y.assignments, y.trials[i]);
        if y.trials[i].status.Running? {
          RunningIsRecoverable(y, i, paperOnly);
        }
      }
    } else {
      UnsettledInScope(y, paperOnly);
    }
  }

  /**
    Quiescence, exactly: with full runs authorized, nothing is handed out if and only if every trial
    in scope is settled, where only the paper trials are in scope while paper work counts as pending.
    */
  lemma QuiescentExactly(s: Study)
    requires Inv(s)
    ensures Next(s, true).1.None? <==>
      forall i :: 0 <= i < |s.trials| && (PaperPending(s.trials, true) ==> s.trials[i].card.paper) ==>
        Settled(s.trials[i])
  {
    var y, p := Yielded(s, true), PaperPending(s.trials, true);
    YieldedKeepsInv(s, true);
    GrantsNothingExactly(y, p);
    forall i | 0 <= i < |s.trials|
      ensures y.trials[i].card == s.trials[i].card && ((p ==> s.trials[i].card.paper) ==> y.trials[i] == s.trials[i])
    {
      assert p ==> y.trials[i] == DeferTrial(s.assignments, s.trials[i]);
    }
  }

  /** Whatever is handed out goes to an unsettled trial in scope. */
  lemma UnsettledInScope(y: Study, paperOnly: bool)
    requires Inv(y)
    requires || Recoverable(y.trials, y.assignments, true, paperOnly).Some?
             || Select(y, Order(y.trials, paperOnly), true).Some?
    ensures exists i :: 0 <= i < |y.trials| && (paperOnly ==> y.trials[i].card.paper) && !Settled(y.trials[i])
  {
    OrderInScope(y.trials, paperOnly);
    var rec := Recoverable(y.trials, y.assignments, true, paperOnly);
    if rec.Some? {
      var j :| 0 <= j < |y.assignments| && y.assignments[j] == rec.value;
      OutstandingIsUnsettled(y, j);
    } else {
      var i := Select(y, Order(y.trials, paperOnly), true).value;
      assert TrialInv(y.cfg, y.assignments, y.trials[i]) && TrialOk(y.assignments, y.trials[i]);
      UnsettledWantsWork(y.cfg, y.assignments, y.trials[i]);
    }
  }

  /** In a study of one class a run that is offered nothing has settled every trial. */
  lemma QuiescentSingleClass(cfg: Config, es: seq<Event>, paper: bool)
    requires Disciplined(EmptyStudy(cfg), es)
    requires forall i :: 0 <= i < |Run(EmptyStudy(cfg), es).trials| ==>
      Run(EmptyStudy(cfg), es).trials[i].card.paper == paper
    ensures var s := Run(EmptyStudy(cfg), es);
      Next(s, true).1.None? <==> forall i :: 0 <= i < |s.trials| ==> Settled(s.trials[i])
  {
    ReachableInv(cfg, es);
    QuiescentExactly(Run(EmptyStudy(cfg), es));
  }
}
