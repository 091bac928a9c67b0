/**
  What a driving process does, as a function of the study, and why a process that dies between two calls
  does not change the outcome: the next one asks, is offered the same allocation, and claims it again.
  */
module AshaResume {
  import opened Options
  import opened AshaTypes
  import opened Promotion
  import opened AshaSpec
  import opened AshaBookkeeping
  import opened AshaLadder
  import opened AshaSteps
  import opened AshaRuns
  import opened AshaAllocation

  /** The run and node names are functions of the allocation, so a restarted driver uses them again. */
  datatype Names = Names(run: (string, Key) -> string, node: (string, Key) -> string)

  ghost predicate BoundTo(a: Assignment, names: Names) {
    Outstanding(a.status) ==>
      && (a.runId == None || a.runId == Some(names.run(a.trialId, a.key)))
      && (a.nodeId == None || a.nodeId == Some(names.node(a.trialId, a.key)))
  }

  ghost predicate AllBound(asgs: seq<Assignment>, names: Names) {
    forall j :: 0 <= j < |asgs| ==> BoundTo(asgs[j], names)
  }

  lemma IssueKeepsBound(s: Study, i: nat, k: Key, names: Names)
    requires i < |s.trials| && 1 <= k.seed <= |s.cfg.seeds| && AllBound(s.assignments, names)
    ensures AllBound(Issue(s, i, k).0.assignments, names)
  {
    var r := Issue(s, i, k).0.assignments;
    forall j | 0 <= j < |r| ensures BoundTo(r[j], names) {
      assert j < |s.assignments| ==> BoundTo(s.assignments[j], names);
    }
  }

  lemma NextKeepsBound(s: Study, confirm: bool, names: Names)
    requires AllBound(s.assignments, names)
    ensures AllBound(Next(s, confirm).0.assignments, names)
  {
    var y, p := Yielded(s, confirm), PaperPending(s.trials, confirm);
    forall j | 0 <= j < |y.assignments| ensures BoundTo(y.assignments[j], names) {
      assert BoundTo(s.assignments[j], names);
    }
    if Recoverable(y.trials, y.assignments, confirm, p).None? && Select(y, Order(y.trials, p), confirm).Some? {
      var i := Select(y, Order(y.trials, p), confirm).value;
      ChoiceSeed(y.cfg, y.trials[i], confirm);
      IssueKeepsBound(y, i, Choice(y.cfg, y.trials[i], confirm).value, names);
    }
  }

  /** Claiming an outstanding allocation under its own names succeeds and binds it to them. */
  lemma ClaimSucceeds(s: Study, id: string, k: Key, names: Names)
    requires Valid(s) && AllBound(s.assignments, names)
    requires Slot(s.assignments, id, k).Some? && Outstanding(Slot(s.assignments, id, k).value)
    ensures var r := MarkRunning(s, id, k, Some(names.run(id, k)), Some(names.node(id, k)));
      && r.Ok? && AllBound(r.value.assignments, names)
      && Slot(r.value.assignments, id, k) == Some(AssignmentStatus.Running)
  {
    var j := FindKey(s.assignments, id, k).value;
    assert KnownAssignment(s.trials, s.assignments[j]);
    assert BoundTo(s.assignments[j], names);
    var r := MarkRunning(s, id, k, Some(names.run(id, k)), Some(names.node(id, k))).value;
    forall m | 0 <= m < |r.assignments| ensures BoundTo(r.assignments[m], names) {
      assert BoundTo(s.assignments[m], names);
    }
    FindKeySame(s.assignments, r.assignments, id, k);
  }

  lemma ReportKeepsBound(s: Study, i: nat, o: Observation, names: Names)
    requires i < |s.trials| && AllBound(s.assignments, names)
    ensures AllBound(Report(s, i, o).assignments, names)
  {
    var r := Report(s, i, o).assignments;
    forall j | 0 <= j < |r| ensures BoundTo(r[j], names) {
      assert BoundTo(s.assignments[j], names);
    }
  }

  // One pass

  datatype Driver = Driver(confirm: bool, names: Names, train: (string, Key) -> Evidence)

  /** The claim of an offered allocation, under the names that belong to it. */
  function ClaimOf(s: Study, names: Names, a: Assignment): Study {
    var r := MarkRunning(s, a.trialId, a.key, Some(names.run(a.trialId, a.key)), Some(names.node(a.trialId, a.key)));
    if r.Ok? then r.value else s
  }

  /** The study once the next allocation has been asked for and claimed. */
  function Claimed(s: Study, d: Driver): Study {
    var r := Next(s, d.confirm);
    if r.1.None? then r.0 else ClaimOf(r.0, d.names, r.1.value)
  }

  /** Ask, claim, train and report: the study afterwards and what was trained. */
  function OnePass(s: Study, d: Driver): (Study, seq<(string, Key)>) {
    var offer := Next(s, d.confirm).1;
    if offer.None? then (Next(s, d.confirm).0, []) else Report1(Claimed(s, d), d, offer.value.trialId, offer.value.key)
  }

  function Report1(s: Study, d: Driver, id: string, k: Key): (Study, seq<(string, Key)>) {
    match Find(s.trials, id)
    case None => (s, [])
    case Some(i) => (Report(s, i, Observation(k, d.train(id, k))), [(id, k)])
  }

  /** n passes without a death. */
  function Passes(s: Study, d: Driver, n: nat): (Study, seq<(string, Key)>)
    decreases n
  {
    if n == 0 then (s, [])
    else
      var one := OnePass(s, d);
      var rest := Passes(one.0, d, n - 1);
      (rest.0, one.1 + rest.1)
  }

  // Asking and claiming leave no trace

  /** After an answered request there is nothing to put back. */
  lemma NextIsFixed(s: Study, confirm: bool)
    requires Valid(s)
    ensures var r := Next(s, confirm).0;
      && Valid(r) && Yielded(r, confirm) == r && (PaperPending(r.trials, confirm) ==> Quiet(r))
  {
    hide Valid;
    var y, p := Yielded(s, confirm), PaperPending(s.trials, confirm);
    YieldedKeepsValid(s, confirm);
    PendingAfterYield(s, confirm);
    GrantIsStable(y, confirm, p);
    var r := Grant(y, confirm, p).0;
    if p {
      YieldedIsPaper(s, confirm);
      GrantKeepsQuiet(y, confirm);
      QuietIsFixed(r);
    }
  }

  /** Two lists whose records can be recovered at the same places recover at the same place. */
  lemma {:induction false} RecoverAlike(xs: seq<Trial>, ys: seq<Trial>, asgs: seq<Assignment>, asgs': seq<Assignment>,
                                        confirm: bool, paperOnly: bool)
    requires SameKeys(asgs, asgs')
    requires forall m :: 0 <= m < |asgs| ==>
      CanRecover(xs, asgs[m], confirm, paperOnly) == CanRecover(ys, asgs'[m], confirm, paperOnly)
    ensures var r, r' := Recoverable(xs, asgs, confirm, paperOnly), Recoverable(ys, asgs', confirm, paperOnly);
      r.Some? == r'.Some? && (r.Some? ==> r'.value.trialId == r.value.trialId && r'.value.key == r.value.key)
  {
    hide CanRecover;
    if asgs != [] {
      RecoverAlike(xs, ys, asgs[1..], asgs'[1..], confirm, paperOnly);
    }
  }

  /** A claim leaves the study looking the same to the next request. */
  ghost predicate LooksAlike(s: Study, r: Study, confirm: bool) {
    && s.cfg == r.cfg && SameCards(s.trials, r.trials) && SameKeys(s.assignments, r.assignments)
    && (forall m :: 0 <= m < |s.assignments| ==>
          Outstanding(s.assignments[m].status) == Outstanding(r.assignments[m].status))
    && PaperPending(s.trials, confirm) == PaperPending(r.trials, confirm)
  }

  lemma IsPaperAlike(xs: seq<Trial>, ys: seq<Trial>, id: string)
    requires SameCards(xs, ys)
    ensures IsPaperId(xs, id) == IsPaperId(ys, id)
  {
    FindSame(xs, ys, id);
  }

  lemma ClaimLooksAlike(s: Study, a: Assignment, names: Names, confirm: bool)
    requires Inv(s) && a in s.assignments && Outstanding(a.status) && (IsFull(a.key.stage) ==> confirm)
    ensures LooksAlike(s, ClaimOf(s, names, a), confirm)
  {
    hide Inv;
    var r := ClaimOf(s, names, a);
    RecordIsSlot(s, a);
    if r != s {
      var i := Find(s.trials, a.trialId).value;
      ClaimedIsRunnable(s, i, a.key, confirm);
      ClaimShape(s, a, names);
      PendingAlike(s.trials, r.trials, i, confirm);
    }
  }

  /** A trial with an outstanding allocation that may be handed out has a status that may run. */
  lemma ClaimedIsRunnable(s: Study, i: nat, k: Key, confirm: bool)
    requires Inv(s) && i < |s.trials| && (IsFull(k.stage) ==> confirm)
    requires var st := Slot(s.assignments, s.trials[i].card.id, k); st.Some? && Outstanding(st.value)
    ensures RunnableStatus(s.trials[i].status, confirm)
  {
    hide Slot, Climb;
    assert TrialInv(s.cfg, s.assignments, s.trials[i]);
    OpenSlot(s.cfg, s.assignments, s.trials[i], k);
  }

  /** A claim touches one record and one trial. */
  lemma ClaimShape(s: Study, a: Assignment, names: Names)
    requires var id, k := a.trialId, a.key; MarkRunning(s, id, k, Some(names.run(id, k)), Some(names.node(id, k))).Ok?
    requires var st := Slot(s.assignments, a.trialId, a.key); st.Some? && Outstanding(st.value)
    ensures var r, i := ClaimOf(s, names, a), Find(s.trials, a.trialId);
      && i.Some? && r.cfg == s.cfg && SameKeys(s.assignments, r.assignments)
      && r.trials == s.trials[i.value := r.trials[i.value]] && r.trials[i.value].card == s.trials[i.value].card
      && r.trials[i.value].status.Running?
      && (forall m :: 0 <= m < |s.assignments| ==>
            Outstanding(s.assignments[m].status) == Outstanding(r.assignments[m].status))
  {
  }

  lemma PendingAlike(xs: seq<Trial>, ys: seq<Trial>, i: nat, confirm: bool)
    requires i < |xs| && |ys| == |xs| && ys == xs[i := ys[i]] && ys[i].card == xs[i].card
    requires RunnableStatus(xs[i].status, confirm) && RunnableStatus(ys[i].status, confirm)
    ensures PaperPending(xs, confirm) == PaperPending(ys, confirm)
  {
    if PaperPending(xs, confirm) {
      var m :| 0 <= m < |xs| && xs[m].card.paper && RunnableStatus(xs[m].status, confirm);
      assert ys[m].card.paper && RunnableStatus(ys[m].status, confirm);
    }
    if PaperPending(ys, confirm) {
      var m :| 0 <= m < |ys| && ys[m].card.paper && RunnableStatus(ys[m].status, confirm);
      assert xs[m].card.paper && RunnableStatus(xs[m].status, confirm);
    }
  }

  /** In a study that looks alike, the same allocation is recovered and nothing changes. */
  lemma RecoversAlike(s: Study, r: Study, confirm: bool, a: Assignment)
    requires Valid(s) && Valid(r) && LooksAlike(s, r, confirm)
    requires PaperPending(s.trials, confirm) ==> Quiet(s)
    requires Recoverable(s.trials, s.assignments, confirm, PaperPending(s.trials, confirm)) == Some(a)
    ensures var n := Next(r, confirm);
      n.0 == r && n.1.Some? && n.1.value.trialId == a.trialId && n.1.value.key == a.key
  {
    hide Valid;
    var p := PaperPending(s.trials, confirm);
    forall m | 0 <= m < |s.assignments|
      ensures CanRecover(s.trials, s.assignments[m], confirm, p) == CanRecover(r.trials, r.assignments[m], confirm, p)
      ensures p && Outstanding(r.assignments[m].status) ==> IsPaperId(r.trials, r.assignments[m].trialId)
    {
      IsPaperAlike(s.trials, r.trials, s.assignments[m].trialId);
    }
    RecoverAlike(s.trials, r.trials, s.assignments, r.assignments, confirm, p);
    if p {
      QuietIsFixed(r);
    }
  }

  /** What is offered after an answered request is an outstanding record that is recovered. */
  lemma OfferIsRecovered(s: Study, confirm: bool)
    requires Inv(s) && Next(s, confirm).1.Some?
    ensures var r, a := Next(s, confirm).0, Next(s, confirm).1.value;
      && Inv(r) && a in r.assignments && Outstanding(a.status) && (IsFull(a.key.stage) ==> confirm)
      && Recoverable(r.trials, r.assignments, confirm, PaperPending(r.trials, confirm)) == Some(a)
  {
    hide Inv, Valid;
    var r, a := Next(s, confirm).0, Next(s, confirm).1.value;
    NextKeepsInv(s, confirm);
    InvIsValid(s);
    InvIsValid(r);
    NextIsStable(s, confirm);
    NextIsFixed(s, confirm);
    NextOffersUntrained(s, confirm);
    var p := PaperPending(r.trials, confirm);
    GrantIsOpen(r, confirm, p);
    if p {
      assert Quiet(r) && IsPaperId(r.trials, a.trialId);
    }
    RecoverableNone(r.trials, r.assignments, confirm, p);
    assert CanRecover(r.trials, a, confirm, p);
  }

  lemma InvIsValid(s: Study)
    requires Inv(s)
    ensures Valid(s)
  {
  }

  /** Claiming twice under the same names is claiming once. */
  lemma ClaimAgain(s: Study, a: Assignment, names: Names, a': Assignment)
    requires Valid(s) && a'.trialId == a.trialId && a'.key == a.key
    ensures ClaimOf(ClaimOf(s, names, a), names, a') == ClaimOf(s, names, a)
  {
    hide Valid, Find, FindKey;
    var id, k := a.trialId, a.key;
    var r := MarkRunning(s, id, k, Some(names.run(id, k)), Some(names.node(id, k)));
    if r.Ok? {
      assert r.value.trials[Find(s.trials, id).value].card == s.trials[Find(s.trials, id).value].card;
      FindKeySame(s.assignments, r.value.assignments, id, k);
      FindSame(s.trials, r.value.trials, id);
      MarkAgain(r.value, id, k, Some(names.run(id, k)), Some(names.node(id, k)));
    }
  }

  /** A running record bound to the names it is claimed with stays as it is. */
  lemma MarkAgain(s: Study, id: string, k: Key, run: Option<string>, node: Option<string>)
    requires FindKey(s.assignments, id, k).Some? && Find(s.trials, id).Some?
    requires var a := s.assignments[FindKey(s.assignments, id, k).value];
      a.status.Running? && OrElse(a.runId, run) == a.runId && OrElse(a.nodeId, node) == a.nodeId
    requires var t := s.trials[Find(s.trials, id).value]; t.status.Running? && t.pending == Some(k.stage)
    ensures var r := MarkRunning(s, id, k, run, node); r.Ok? ==> r.value == s
  {
    hide Find, FindKey;
    var r := MarkRunning(s, id, k, run, node);
    if r.Ok? {
      assert r.value.assignments == s.assignments && r.value.trials == s.trials;
    }
  }

  /** A process that dies after asking changes nothing for the next pass. */
  lemma AskingLeavesNoTrace(s: Study, d: Driver)
    requires Valid(s)
    ensures OnePass(Next(s, d.confirm).0, d) == OnePass(s, d)
  {
    hide Next;
    NextIsStable(s, d.confirm);
  }

  /** A process that dies after claiming changes nothing for the next pass. */
  lemma ClaimingLeavesNoTrace(s: Study, d: Driver)
    requires Inv(s) && AllBound(s.assignments, d.names) && Next(s, d.confirm).1.Some?
    ensures OnePass(Claimed(s, d), d) == OnePass(s, d)
  {
    hide Next, Inv, Valid, AllBound, ClaimOf, LooksAlike, Report1, Quiet;
    var r, a := Next(s, d.confirm).0, Next(s, d.confirm).1.value;
    OfferIsRecovered(s, d.confirm);
    InvIsValid(s);
    InvIsValid(r);
    NextIsFixed(s, d.confirm);
    ClaimLooksAlike(r, a, d.names, d.confirm);
    ClaimValid(r, a, d.names);
    RecoversAlike(r, ClaimOf(r, d.names, a), d.confirm, a);
    var c := ClaimOf(r, d.names, a);
    assert Claimed(s, d) == c;
    ClaimAgain(r, a, d.names, Next(c, d.confirm).1.value);
    assert Claimed(c, d) == c;
    assert OnePass(s, d) == Report1(c, d, a.trialId, a.key);
    assert OnePass(c, d) == Report1(c, d, a.trialId, a.key);
  }

  lemma ClaimValid(s: Study, a: Assignment, names: Names)
    requires Valid(s)
    ensures Valid(ClaimOf(s, names, a))
  {
    hide Valid, MarkRunning;
    var r := MarkRunning(s, a.trialId, a.key, Some(names.run(a.trialId, a.key)), Some(names.node(a.trialId, a.key)));
    if r.Ok? {
      MarkKeepsValid(s, a.trialId, a.key, Some(names.run(a.trialId, a.key)), Some(names.node(a.trialId, a.key)));
    }
  }

  /** Once nothing is offered, further passes change nothing and train nothing. */
  lemma {:induction false} IdlePasses(s: Study, d: Driver, n: nat)
    requires Next(s, d.confirm) == (s, None)
    ensures Passes(s, d, n) == (s, [])
  {
    hide Next;
    if n > 0 {
      IdlePasses(s, d, n - 1);
      var one := OnePass(s, d);
      assert one == (s, []) && one.1 + Passes(s, d, n - 1).1 == [];
    }
  }
}
