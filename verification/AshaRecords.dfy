/**
  What an assignment record says is to be trained: the configured seed of its index and the budget of its
  own rung, for good, whatever is called.
  */
module AshaRecords {
  import opened Options
  import opened AshaTypes
  import opened Promotion
  import opened AshaSpec
  import opened AshaBookkeeping
  import opened AshaLadder
  import opened AshaRuns
  import opened AshaCalls
  import opened Registration

  predicate BudgetOf(rung: RungSpec, a: Assignment) {
    a.epochs == rung.epochs && a.fraction == rung.fraction
  }

  /** The record trains the seed its index names, with the epochs and the data fraction of its rung. */
  predicate RecordFits(cfg: Config, a: Assignment) {
    && 1 <= a.key.seed <= |cfg.seeds| && a.seed == cfg.seeds[a.key.seed - 1]
    && (a.key.stage == Pilot3 ==> BudgetOf(cfg.pilot3, a))
    && (a.key.stage == Pilot10 ==> BudgetOf(cfg.pilot10, a))
    && (a.key.stage == FullSeed1 ==> BudgetOf(cfg.fullSeed1, a))
    && (a.key.stage == FullConfirmation ==> BudgetOf(cfg.fullConfirmation, a))
  }

  /** The record is for the candidate of its trial. */
  predicate OwnCandidate(trials: seq<Trial>, a: Assignment) {
    var i := Find(trials, a.trialId);
    i.Some? && trials[i.value].card.candidateId == a.candidateId
  }

  ghost predicate RecordsFit(s: Study) {
    forall a <- s.assignments :: RecordFits(s.cfg, a) && OwnCandidate(s.trials, a)
  }

  /** b is a at another status or binding: what it trains is the same. */
  predicate SameWork(a: Assignment, b: Assignment) {
    b == a.(status := b.status, runId := b.runId, nodeId := b.nodeId)
  }

  predicate OwnedBy(a: Assignment, card: Card) {
    card.id == a.trialId && card.candidateId == a.candidateId
  }

  /** A record appended for a trial of the study: issued, unbound, and fit for training. */
  predicate FreshRecord(s: Study, a: Assignment) {
    && RecordFits(s.cfg, a) && a.status.Issued? && a.runId == None && a.nodeId == None
    && exists i :: 0 <= i < |s.trials| && OwnedBy(a, s.trials[i].card)
  }

  /** The records stay what they are, and what is added is fit. */
  ghost predicate WorkKept(s: Study, r: Study) {
    && r.cfg == s.cfg && |s.assignments| <= |r.assignments|
    && (forall j :: 0 <= j < |s.assignments| ==> SameWork(s.assignments[j], r.assignments[j]))
    && (forall j :: |s.assignments| <= j < |r.assignments| ==> FreshRecord(s, r.assignments[j]))
  }

  // One call

  lemma IssueKeepsWork(s: Study, i: nat, k: Key)
    requires i < |s.trials| && 1 <= k.seed <= |s.cfg.seeds|
    ensures WorkKept(s, Issue(s, i, k).0)
  {
    if FindKey(s.assignments, s.trials[i].card.id, k).None? {
      var a := NewAssignment(s, s.trials[i], k);
      assert RecordFits(s.cfg, a);
      assert OwnedBy(a, s.trials[i].card);
    }
  }

  lemma YieldedKeepsWork(s: Study, confirm: bool)
    ensures WorkKept(s, Yielded(s, confirm))
  {
  }

  /** Deferral leaves the cards alone, so what is fresh after it is fresh. */
  lemma StillFresh(s: Study, y: Study, a: Assignment)
    requires y.cfg == s.cfg && SameCards(s.trials, y.trials) && FreshRecord(y, a)
    ensures FreshRecord(s, a)
  {
    var i :| 0 <= i < |y.trials| && OwnedBy(a, y.trials[i].card);
    assert s.trials[i].card == y.trials[i].card && OwnedBy(a, s.trials[i].card);
  }

  lemma NextKeepsWork(s: Study, confirm: bool)
    ensures WorkKept(s, Next(s, confirm).0)
  {
    hide RecordFits, FreshRecord, Issue, Yielded, Choice;
    var y, p := Yielded(s, confirm), PaperPending(s.trials, confirm);
    YieldedKeepsWork(s, confirm);
    YieldedKeepsCards(s, confirm);
    YieldedKeepsCount(s, confirm);
    if Recoverable(y.trials, y.assignments, confirm, p).None? {
      var pick := Select(y, Order(y.trials, p), confirm);
      if pick.Some? {
        var k := Choice(y.cfg, y.trials[pick.value], confirm).value;
        ChoiceSeed(y.cfg, y.trials[pick.value], confirm);
        var r := Issue(y, pick.value, k).0;
        IssueKeepsWork(y, pick.value, k);
        forall j | 0 <= j < |s.assignments| ensures SameWork(s.assignments[j], r.assignments[j]) {
          assert SameWork(s.assignments[j], y.assignments[j]) && SameWork(y.assignments[j], r.assignments[j]);
        }
        forall j | |s.assignments| <= j < |r.assignments| ensures FreshRecord(s, r.assignments[j]) {
          StillFresh(s, y, r.assignments[j]);
        }
      }
    }
  }

  lemma YieldedKeepsCards(s: Study, confirm: bool)
    ensures SameCards(s.trials, Yielded(s, confirm).trials)
  {
  }

  lemma YieldedKeepsCount(s: Study, confirm: bool)
    ensures |Yielded(s, confirm).assignments| == |s.assignments|
  {
  }

  lemma CallKeepsWork(s: Study, c: Call)
    ensures WorkKept(s, Perform(s, c))
  {
    if c.DoNext? {
      hide Next;
      NextKeepsWork(s, c.confirm);
    } else {
      QuietCallKeepsWork(s, c);
    }
  }

  /** Every other call only changes statuses and bindings. */
  lemma QuietCallKeepsWork(s: Study, c: Call)
    requires !c.DoNext?
    ensures WorkKept(s, Perform(s, c)) && |Perform(s, c).assignments| == |s.assignments|
  {
    hide Refresh, Settle, Readmitted, Broken, FreshTrial, AdmissionError, Rebinds, TargetId, KnownAs, PlanConflict;
  }

  // All calls

  lemma WorkKeptFits(s: Study, r: Study)
    requires Valid(s) && RecordsFit(s) && WorkKept(s, r)
    requires Valid(r) && KeepsIdentity(s.trials, r.trials)
    ensures RecordsFit(r)
  {
    hide RecordFits, TrialOk;
    forall j | 0 <= j < |r.assignments|
      ensures RecordFits(r.cfg, r.assignments[j]) && OwnCandidate(r.trials, r.assignments[j])
    {
      var b := r.assignments[j];
      if j < |s.assignments| {
        var a := s.assignments[j];
        assert a in s.assignments && SameWork(a, b);
        SameFits(s.cfg, a, b);
        KeepsOwner(s.trials, r.trials, Find(s.trials, a.trialId).value);
      } else {
        var i :| 0 <= i < |s.trials| && OwnedBy(b, s.trials[i].card);
        FreshFits(s, b);
        KeepsOwner(s.trials, r.trials, i);
      }
    }
  }

  lemma FreshFits(s: Study, a: Assignment)
    requires FreshRecord(s, a)
    ensures RecordFits(s.cfg, a)
  {
  }

  lemma SameFits(cfg: Config, a: Assignment, b: Assignment)
    requires RecordFits(cfg, a) && SameWork(a, b)
    ensures RecordFits(cfg, b)
  {
  }

  /** A trial keeps its place, its id and its candidate. */
  lemma KeepsOwner(xs: seq<Trial>, ys: seq<Trial>, i: nat)
    requires UniqueIds(ys) && KeepsIdentity(xs, ys) && i < |xs|
    ensures Find(ys, xs[i].card.id) == Some(i) && ys[i].card.candidateId == xs[i].card.candidateId
  {
    assert SameIdentity(xs[i].card, ys[i].card);
    FindFirst(ys, i);
  }

  /**
    Whatever is called in whatever order from an empty study: every record trains the configured seed of
    its index, for the candidate of its trial, with the epochs and the data fraction of its own rung.
    */
  lemma {:induction false} AnyCallsKeepRecords(s: Study, cs: seq<Call>)
    requires Valid(s) && RecordsFit(s)
    ensures Performed(s, cs).cfg == s.cfg && RecordsFit(Performed(s, cs))
    decreases |cs|
  {
    hide Perform, Valid, RecordsFit;
    if cs != [] {
      var r := Perform(s, cs[0]);
      CallKeepsWork(s, cs[0]);
      CallKeepsValid(s, cs[0]);
      CallKeepsIdentity(s, cs[0]);
      WorkKeptFits(s, r);
      AnyCallsKeepRecords(r, cs[1..]);
    }
  }

  lemma CalledRecordsFit(cfg: Config, cs: seq<Call>, j: nat)
    requires j < |Performed(EmptyStudy(cfg), cs).assignments|
    ensures var s := Performed(EmptyStudy(cfg), cs);
      RecordFits(cfg, s.assignments[j]) && OwnCandidate(s.trials, s.assignments[j])
  {
    AnyCallsKeepRecords(EmptyStudy(cfg), cs);
  }

  // Disciplined runs

  lemma StepKeepsRecords(s: Study, e: Event)
    requires Inv(s) && RecordsFit(s) && Enabled(s, e)
    ensures RecordsFit(Apply(s, e))
  {
    hide Inv, Valid, RecordsFit, Next, Report, MarkRunning;
    StepKeepsInv(s, e);
    InvMeansValid(s);
    InvMeansValid(Apply(s, e));
    match e
    case Enroll(t) => EnrolledFits(s, t);
    case Ask(confirm) =>
      NextKeepsWork(s, confirm);
      CallKeepsIdentity(s, DoNext(confirm));
      WorkKeptFits(s, Apply(s, e));
    case Claim(id, k, run, node) =>
      CallKeepsWork(s, DoMark(id, k, run, node));
      CallKeepsIdentity(s, DoMark(id, k, run, node));
      WorkKeptFits(s, Apply(s, e));
    case Deliver(i, o) =>
      CallKeepsWork(s, DoReport(i, o));
      CallKeepsIdentity(s, DoReport(i, o));
      WorkKeptFits(s, Apply(s, e));
  }

  lemma InvMeansValid(s: Study)
    requires Inv(s)
    ensures Valid(s)
  {
  }

  lemma EnrolledFits(s: Study, t: Trial)
    requires RecordsFit(s)
    ensures RecordsFit(s.(trials := s.trials + [t]))
  {
    forall a <- s.assignments ensures OwnCandidate(s.trials + [t], a) {
      FindAppend(s.trials, t, a.trialId);
    }
  }

  lemma {:induction false} RunKeepsRecords(s: Study, es: seq<Event>)
    requires Inv(s) && RecordsFit(s) && Disciplined(s, es)
    ensures RecordsFit(Run(s, es)) && Run(s, es).cfg == s.cfg
    decreases |es|
  {
    hide Apply, Enabled, Inv, RecordsFit;
    if es != [] {
      StepKeepsInv(s, es[0]);
      StepKeepsRecords(s, es[0]);
      RunKeepsRecords(Apply(s, es[0]), es[1..]);
    }
  }

  /** The same for every disciplined run. */
  lemma RunRecordsFit(cfg: Config, es: seq<Event>, j: nat)
    requires Disciplined(EmptyStudy(cfg), es) && j < |Run(EmptyStudy(cfg), es).assignments|
    ensures var s := Run(EmptyStudy(cfg), es);
      RecordFits(cfg, s.assignments[j]) && OwnCandidate(s.trials, s.assignments[j])
  {
    RunKeepsRecords(EmptyStudy(cfg), es);
  }

  // A confirmed trial

  /** a is a full run of trial id. */
  predicate FullRunOf(a: Assignment, id: string) {
    a.trialId == id && IsFull(a.key.stage)
  }

  /** a is the consumed full run of trial id on the j-th configured seed. */
  predicate TrainedSeed(cfg: Config, a: Assignment, id: string, j: nat)
    requires j < |cfg.seeds|
  {
    FullRunOf(a, id) && a.key == SeedKey(j) && a.seed == cfg.seeds[j] && Consumed(a.status)
  }

  ghost predicate SeedIsTrained(cfg: Config, asgs: seq<Assignment>, id: string, j: nat)
    requires j < |cfg.seeds|
  {
    exists m :: 0 <= m < |asgs| && TrainedSeed(cfg, asgs[m], id, j)
  }

  /** The record is for the seed its own index names. */
  predicate TrainsItsSeed(cfg: Config, a: Assignment, id: string) {
    1 <= a.key.seed <= |cfg.seeds| && TrainedSeed(cfg, a, id, a.key.seed - 1)
  }

  lemma ConfirmedConsumed(s: Study, i: nat, j: nat)
    requires Inv(s) && i < |s.trials| && s.trials[i].status.Confirmed? && j < |s.cfg.seeds|
    ensures var st := Slot(s.assignments, s.trials[i].card.id, SeedKey(j)); st.Some? && Consumed(st.value)
  {
    hide Valid, SingleOutstanding, Slot, Awaits, Before, Screen, Confirms, Legal, NextKey, ParkedAt, RunsAt, SeedKey;
    var t := s.trials[i];
    assert TrialInv(s.cfg, s.assignments, t);
    assert At(t, SeedKey(j)).Some?;
    assert KeyOk(s.cfg, s.assignments, t, SeedKey(j));
  }

  lemma ConfirmedSlot(s: Study, i: nat, j: nat) returns (m: nat)
    requires Inv(s) && RecordsFit(s) && i < |s.trials| && s.trials[i].status.Confirmed? && j < |s.cfg.seeds|
    ensures m < |s.assignments| && TrainedSeed(s.cfg, s.assignments[m], s.trials[i].card.id, j)
  {
    hide Inv, OwnCandidate;
    ConfirmedConsumed(s, i, j);
    var t := s.trials[i];
    m := FindKey(s.assignments, t.card.id, SeedKey(j)).value;
    assert s.assignments[m] in s.assignments && RecordFits(s.cfg, s.assignments[m]);
  }

  lemma ConfirmedRun(s: Study, i: nat, m: nat)
    requires Inv(s) && RecordsFit(s) && i < |s.trials| && s.trials[i].status.Confirmed?
    requires m < |s.assignments| && FullRunOf(s.assignments[m], s.trials[i].card.id)
    ensures TrainsItsSeed(s.cfg, s.assignments[m], s.trials[i].card.id)
  {
    hide Awaits, Before, Screen, Confirms, Lookup;
    var t, a := s.trials[i], s.assignments[m];
    assert TrialInv(s.cfg, s.assignments, t);
    SlotOf(s.assignments, m);
    assert KeyOk(s.cfg, s.assignments, t, a.key);
    assert a in s.assignments && RecordFits(s.cfg, a);
  }

  /**
    The full runs of a confirmed trial are, in every disciplined run, exactly one consumed record for each
    configured seed, and they train pairwise different seeds when the configured ones are.
    */
  lemma ConfirmedOnEverySeed(cfg: Config, es: seq<Event>, i: nat)
    requires Disciplined(EmptyStudy(cfg), es) && i < |Run(EmptyStudy(cfg), es).trials|
    requires Run(EmptyStudy(cfg), es).trials[i].status.Confirmed?
    ensures var s := Run(EmptyStudy(cfg), es);
      var id, asgs := s.trials[i].card.id, s.assignments;
      && (forall j :: 0 <= j < |cfg.seeds| ==> SeedIsTrained(cfg, asgs, id, j))
      && (forall m :: 0 <= m < |asgs| && FullRunOf(asgs[m], id) ==> TrainsItsSeed(cfg, asgs[m], id))
      && (forall m, n :: 0 <= m < n < |asgs| && FullRunOf(asgs[m], id) && FullRunOf(asgs[n], id) ==>
            asgs[m].key.seed != asgs[n].key.seed && (DistinctSeeds(cfg) ==> asgs[m].seed != asgs[n].seed))
  {
    hide Run, Disciplined, Inv, RecordsFit, TrainedSeed;
    var s := Run(EmptyStudy(cfg), es);
    EmptyFits(cfg);
    ReachableInv(cfg, es);
    RunKeepsRecords(EmptyStudy(cfg), es);
    var id, asgs := s.trials[i].card.id, s.assignments;
    forall j | 0 <= j < |cfg.seeds| ensures SeedIsTrained(cfg, asgs, id, j) {
      var m := ConfirmedSlot(s, i, j);
    }
    forall m | 0 <= m < |asgs| && FullRunOf(asgs[m], id) ensures TrainsItsSeed(cfg, asgs[m], id) {
      ConfirmedRun(s, i, m);
    }
    forall m, n | 0 <= m < n < |asgs| && FullRunOf(asgs[m], id) && FullRunOf(asgs[n], id)
      ensures asgs[m].key.seed != asgs[n].key.seed && (DistinctSeeds(cfg) ==> asgs[m].seed != asgs[n].seed)
    {
      ConfirmedApart(s, i, m, n);
    }
  }

  predicate DistinctSeeds(cfg: Config) {
    forall i, j :: 0 <= i < j < |cfg.seeds| ==> cfg.seeds[i] != cfg.seeds[j]
  }

  lemma EmptyFits(cfg: Config)
    ensures RecordsFit(EmptyStudy(cfg)) && Inv(EmptyStudy(cfg))
  {
  }

  lemma ConfirmedApart(s: Study, i: nat, m: nat, n: nat)
    requires Inv(s) && RecordsFit(s) && i < |s.trials| && s.trials[i].status.Confirmed?
    requires m < n < |s.assignments|
    requires FullRunOf(s.assignments[m], s.trials[i].card.id) && FullRunOf(s.assignments[n], s.trials[i].card.id)
    ensures s.assignments[m].key.seed != s.assignments[n].key.seed
    ensures DistinctSeeds(s.cfg) ==> s.assignments[m].seed != s.assignments[n].seed
  {
    ConfirmedRun(s, i, m);
    ConfirmedRun(s, i, n);
    assert !IsFor(s.assignments[m], s.assignments[n].trialId, s.assignments[n].key);
  }
}
