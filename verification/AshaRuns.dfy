/**
  Whole disciplined runs.  A run starts from an empty study and is any sequence of: enrolling a new
  trial, asking for the next assignment, claiming one that is being handed out, and delivering a
  report that answers an open allocation or redoes one a trial needs evidence for.  A crash is a
  driver that forgets what it was told: it simply asks again.
  */
module AshaRuns {
  import opened Options
  import opened Collections
  import opened AshaTypes
  import opened Promotion
  import opened AshaSpec
  import opened AshaBookkeeping
  import opened AshaLadder
  import opened AshaSteps
  import Confidence

  datatype Event =
    | Enroll(t: Trial)
    | Ask(confirm: bool)
    | Claim(id: string, key: Key, run: Option<string>, node: Option<string>)
    | Deliver(i: nat, o: Observation)

  /** What registration appends: a queued trial, or one the circuit breaker admits as failed. */
  predicate Newcomer(s: Study, t: Trial) {
    && Find(s.trials, t.card.id).None?
    && t.observations == []
    && ((t.status.Waiting? && t.pending == Some(Pilot3)) || (t.status.Failed? && t.pending == None))
  }

  predicate Enabled(s: Study, e: Event) {
    match e
    case Enroll(t) => Newcomer(s, t)
    case Ask(_) => true
    case Claim(id, k, _, _) =>
      Slot(s.assignments, id, k).Some? && Outstanding(Slot(s.assignments, id, k).value)
    case Deliver(i, o) => i < |s.trials| && MayReport(s, i, o)
  }

  function Apply(s: Study, e: Event): Study
    requires Enabled(s, e)
  {
    match e
    case Enroll(t) => s.(trials := s.trials + [t])
    case Ask(confirm) => Next(s, confirm).0
    case Claim(id, k, run, node) =>
      var r := MarkRunning(s, id, k, run, node);
      if r.Ok? then r.value else s
    case Deliver(i, o) => Report(s, i, o)
  }

  predicate Disciplined(s: Study, es: seq<Event>)
    decreases |es|
  {
    es == [] || (Enabled(s, es[0]) && Disciplined(Apply(s, es[0]), es[1..]))
  }

  function Run(s: Study, es: seq<Event>): Study
    requires Disciplined(s, es)
    decreases |es|
  {
    if es == [] then s else Run(Apply(s, es[0]), es[1..])
  }

  function EmptyStudy(cfg: Config): Study {
    Study(cfg, [], [])
  }

  // The invariant over runs

  lemma NewcomerFits(s: Study, t: Trial)
    requires Inv(s) && Newcomer(s, t)
    ensures TrialOk(s.assignments, t) && TrialInv(s.cfg, s.assignments, t)
  {
    forall k: Key ensures KeyOk(s.cfg, s.assignments, t, k) {
      FindKeyNone(s.assignments, t.card.id, k);
      assert forall j :: 0 <= j < |s.assignments| ==> KnownAssignment(s.trials, s.assignments[j]);
    }
  }

  lemma FindAppend(xs: seq<Trial>, t: Trial, id: string)
    ensures Find(xs + [t], id) ==
      if Find(xs, id).Some? then Find(xs, id) else if t.card.id == id then Some(|xs|) else None
  {
    assert (xs + [t])[..|xs|] == xs;
  }

  lemma EnrollKeepsInv(s: Study, t: Trial)
    requires Inv(s) && Newcomer(s, t)
    ensures Inv(s.(trials := s.trials + [t]))
  {
    NewcomerFits(s, t);
    FindNone(s.trials, t.card.id);
    forall j | 0 <= j < |s.assignments| ensures KnownAssignment(s.trials + [t], s.assignments[j]) {
      assert KnownAssignment(s.trials, s.assignments[j]);
      FindAppend(s.trials, t, s.assignments[j].trialId);
    }
  }

  lemma ClaimKeepsInv(s: Study, e: Event)
    requires Inv(s) && e.Claim? && Enabled(s, e)
    ensures Inv(Apply(s, e))
  {
    if MarkRunning(s, e.id, e.key, e.run, e.node).Ok? {
      MarkKeepsInv(s, e.id, e.key, e.run, e.node);
    }
  }

  lemma StepKeepsConfig(s: Study, e: Event)
    requires Enabled(s, e)
    ensures Apply(s, e).cfg == s.cfg
  {
  }

  lemma StepKeepsInv(s: Study, e: Event)
    requires Inv(s) && Enabled(s, e)
    ensures Inv(Apply(s, e)) && Apply(s, e).cfg == s.cfg
  {
    StepKeepsConfig(s, e);
    var r := Apply(s, e);
    assert Inv(r) by {
      match e
      case Enroll(t) =>
        EnrollKeepsInv(s, t);
        assert r == s.(trials := s.trials + [t]);
      case Ask(confirm) =>
        NextKeepsInv(s, confirm);
        assert r == Next(s, confirm).0;
      case Claim(_, _, _, _) =>
        ClaimKeepsInv(s, e);
      case Deliver(i, o) =>
        ReportKeepsInv(s, i, o);
        assert r == Report(s, i, o);
    }
  }

  lemma {:induction false} RunKeepsInv(s: Study, es: seq<Event>)
    requires Inv(s) && Disciplined(s, es)
    ensures Inv(Run(s, es)) && Run(s, es).cfg == s.cfg
    decreases |es|
  {
    if es != [] {
      StepKeepsInv(s, es[0]);
      RunKeepsInv(Apply(s, es[0]), es[1..]);
    }
  }

  /** Every state a disciplined run reaches satisfies the ladder invariant. */
  lemma ReachableInv(cfg: Config, es: seq<Event>)
    requires Disciplined(EmptyStudy(cfg), es)
    ensures Inv(Run(EmptyStudy(cfg), es)) && Run(EmptyStudy(cfg), es).cfg == cfg
  {
    RunKeepsInv(EmptyStudy(cfg), es);
  }

  // No key is trained twice

  ghost predicate Observed(s: Study, id: string, k: Key) {
    exists i :: 0 <= i < |s.trials| && s.trials[i].card.id == id && At(s.trials[i], k).Some?
  }

  /** What an event trains: a report that answers an allocation; redone evidence is not training. */
  function OwnTraining(s: Study, e: Event): seq<(string, Key)>
    requires Enabled(s, e)
  {
    if e.Deliver? && Answers(s, e.i, e.o) then [(s.trials[e.i].card.id, e.o.key)] else []
  }

  /** The (trial, key) pairs whose training a run delivers, in order. */
  function Trainings(s: Study, es: seq<Event>): seq<(string, Key)>
    requires Disciplined(s, es)
    decreases |es|
  {
    if es == [] then []
    else OwnTraining(s, es[0]) + Trainings(Apply(s, es[0]), es[1..])
  }

  lemma NextKeepsEvidence(s: Study, confirm: bool, i: nat)
    requires i < |s.trials|
    ensures var r := Next(s, confirm).0;
      && |r.trials| == |s.trials| && r.trials[i].card == s.trials[i].card
      && r.trials[i].observations == s.trials[i].observations
  {
    assert Next(s, confirm).0.trials == Yielded(s, confirm).trials;
  }

  lemma ClaimKeepsEvidence(s: Study, e: Event, i: nat)
    requires e.Claim? && Enabled(s, e) && i < |s.trials|
    ensures var r := Apply(s, e);
      && |r.trials| == |s.trials| && r.trials[i].card == s.trials[i].card
      && r.trials[i].observations == s.trials[i].observations
  {
  }

  /** A step records at most the delivered report; cards and other evidence stay. */
  lemma StepKeepsEvidence(s: Study, e: Event, i: nat)
    requires Inv(s) && Enabled(s, e) && i < |s.trials|
    ensures i < |Apply(s, e).trials|
    ensures Apply(s, e).trials[i].card == s.trials[i].card
    ensures Apply(s, e).trials[i].observations ==
      if e.Deliver? && e.i == i then Record(s.trials[i].observations, e.o) else s.trials[i].observations
  {
    match e
    case Enroll(_) =>
    case Ask(confirm) => NextKeepsEvidence(s, confirm, i);
    case Claim(_, _, _, _) => ClaimKeepsEvidence(s, e, i);
    case Deliver(j, o) => ReportTrial(s, j, o, i);
  }

  lemma StepKeepsObserved(s: Study, e: Event, id: string, k: Key)
    requires Inv(s) && Enabled(s, e) && Observed(s, id, k)
    ensures Observed(Apply(s, e), id, k)
  {
    var i :| 0 <= i < |s.trials| && s.trials[i].card.id == id && At(s.trials[i], k).Some?;
    StepKeepsEvidence(s, e, i);
    if e.Deliver? {
      RecordLookup(s.trials[i].observations, e.o, k);
    }
    assert Apply(s, e).trials[i].card.id == id && At(Apply(s, e).trials[i], k).Some?;
  }

  lemma AnswerIsNews(s: Study, i: nat, o: Observation)
    requires Inv(s) && i < |s.trials| && Answers(s, i, o)
    ensures !Observed(s, s.trials[i].card.id, o.key)
    ensures Observed(Report(s, i, o), s.trials[i].card.id, o.key)
  {
    hide Climb, Screen, Report, Lookup, Record, Slot, Before;
    assert TrialInv(s.cfg, s.assignments, s.trials[i]);
    assert KeyOk(s.cfg, s.assignments, s.trials[i], o.key);
    FindFirst(s.trials, i);
    forall j | 0 <= j < |s.trials| && s.trials[j].card.id == s.trials[i].card.id ensures j == i {
      FindFirst(s.trials, j);
    }
    StepKeepsEvidence(s, Deliver(i, o), i);
    RecordLookup(s.trials[i].observations, o, o.key);
    assert At(Report(s, i, o).trials[i], o.key).Some?;
  }

  lemma {:induction false} TrainingsAreFresh(s: Study, es: seq<Event>)
    requires Inv(s) && Disciplined(s, es)
    ensures forall p <- Trainings(s, es) :: !Observed(s, p.0, p.1)
    ensures forall x, y :: 0 <= x < y < |Trainings(s, es)| ==> Trainings(s, es)[x] != Trainings(s, es)[y]
    decreases |es|
  {
    if es != [] {
      var e, r := es[0], Apply(s, es[0]);
      StepKeepsInv(s, e);
      TrainingsAreFresh(r, es[1..]);
      if e.Deliver? && Answers(s, e.i, e.o) {
        AnswerIsNews(s, e.i, e.o);
      }
      forall p <- Trainings(r, es[1..]) ensures !Observed(s, p.0, p.1) {
        if Observed(s, p.0, p.1) {
          StepKeepsObserved(s, e, p.0, p.1);
        }
      }
    }
  }

  /** A run can be prolonged by a run from where it ended. */
  lemma {:induction false} DisciplinedConcat(s: Study, es: seq<Event>, fs: seq<Event>)
    requires Disciplined(s, es) && Disciplined(Run(s, es), fs)
    ensures Disciplined(s, es + fs)
    decreases |es|
  {
    hide Apply, Enabled;
    var all := es + fs;
    if es == [] {
      assert all == fs;
    } else {
      assert all[0] == es[0] && all[1..] == es[1..] + fs;
      DisciplinedConcat(Apply(s, es[0]), es[1..], fs);
    }
  }

  lemma {:induction false} RunConcat(s: Study, es: seq<Event>, fs: seq<Event>)
    requires Disciplined(s, es) && Disciplined(Run(s, es), fs) && Disciplined(s, es + fs)
    ensures Run(s, es + fs) == Run(Run(s, es), fs)
    decreases |es|
  {
    hide Apply, Enabled;
    var all := es + fs;
    if es == [] {
      assert all == fs;
    } else {
      var r := Apply(s, es[0]);
      assert all[0] == es[0] && all[1..] == es[1..] + fs;
      RunConcat(r, es[1..], fs);
      assert Run(s, all) == Run(r, all[1..]);
    }
  }

  lemma {:induction false} TrainingsConcat(s: Study, es: seq<Event>, fs: seq<Event>)
    requires Disciplined(s, es) && Disciplined(Run(s, es), fs) && Disciplined(s, es + fs)
    ensures Trainings(s, es + fs) == Trainings(s, es) + Trainings(Run(s, es), fs)
    decreases |es|
  {
    hide Apply, Enabled, OwnTraining;
    var all := es + fs;
    if es == [] {
      assert all == fs;
    } else {
      var r, own := Apply(s, es[0]), OwnTraining(s, es[0]);
      assert all[0] == es[0] && all[1..] == es[1..] + fs;
      TrainingsConcat(r, es[1..], fs);
      AppendAssociates(own, Trainings(r, es[1..]), Trainings(Run(r, es[1..]), fs));
    }
  }

  // How much can be trained at all

  /** The keys of one trial's ladder. */
  function LadderKeys(cfg: Config): set<Key> {
    {P3, P10, FULL1} + SeedKeys(|cfg.seeds|)
  }

  function SeedKeys(n: nat): set<Key> {
    if n < 2 then {} else SeedKeys(n - 1) + {Key(FullConfirmation, n)}
  }

  lemma {:induction false} SeedKeysFacts(n: nat)
    ensures |SeedKeys(n)| == if n < 2 then 0 else n - 1
    ensures forall k: Key :: k in SeedKeys(n) <==> k.stage.FullConfirmation? && 2 <= k.seed <= n
  {
    if n >= 2 {
      SeedKeysFacts(n - 1);
    }
  }

  lemma LadderKeysFacts(cfg: Config)
    ensures |LadderKeys(cfg)| == |cfg.seeds| + 2
    ensures forall k: Key :: Legal(cfg, k) <==> k in LadderKeys(cfg)
  {
    SeedKeysFacts(|cfg.seeds|);
    assert {P3, P10, FULL1} !! SeedKeys(|cfg.seeds|);
    assert |{P3, P10, FULL1}| == 3;
  }

  function KeysOf(obs: seq<Observation>): set<Key> {
    if obs == [] then {} else KeysOf(obs[..|obs| - 1]) + {obs[|obs| - 1].key}
  }

  lemma {:induction false} KeysOfFacts(obs: seq<Observation>)
    requires UniqueKeys(obs)
    ensures |KeysOf(obs)| == |obs|
    ensures forall k :: k in KeysOf(obs) ==> Lookup(obs, k).Some?
    ensures forall k :: k in KeysOf(obs) ==> exists i :: 0 <= i < |obs| && obs[i].key == k
  {
    if obs != [] {
      KeysOfFacts(obs[..|obs| - 1]);
      forall k | k in KeysOf(obs) ensures exists i :: 0 <= i < |obs| && obs[i].key == k {
        if k in KeysOf(obs[..|obs| - 1]) {
          var i :| 0 <= i < |obs| - 1 && obs[..|obs| - 1][i].key == k;
          assert obs[i].key == k;
        } else {
          assert obs[|obs| - 1].key == k;
        }
      }
    }
  }

  /** One trial's evidence never outgrows the ladder. */
  lemma EvidenceBound(s: Study, i: nat)
    requires Inv(s) && i < |s.trials|
    ensures |s.trials[i].observations| <= |s.cfg.seeds| + 2
  {
    var t := s.trials[i];
    assert TrialOk(s.assignments, t) && TrialInv(s.cfg, s.assignments, t);
    KeysOfFacts(t.observations);
    LadderKeysFacts(s.cfg);
    forall k | k in KeysOf(t.observations) ensures k in LadderKeys(s.cfg) {
      assert At(t, k).Some?;
      assert KeyOk(s.cfg, s.assignments, t, k);
    }
    SubsetSize(KeysOf(t.observations), LadderKeys(s.cfg));
  }

  function TotalEvidence(trials: seq<Trial>): nat {
    if trials == [] then 0
    else TotalEvidence(trials[..|trials| - 1]) + |trials[|trials| - 1].observations|
  }

  lemma {:induction false} TotalBound(trials: seq<Trial>, n: nat)
    requires forall i :: 0 <= i < |trials| ==> |trials[i].observations| <= n
    ensures TotalEvidence(trials) <= |trials| * n
  {
    if trials != [] {
      TotalBound(trials[..|trials| - 1], n);
      assert |trials| * n == (|trials| - 1) * n + n;
    }
  }

  lemma {:induction false} TotalChange(xs: seq<Trial>, ys: seq<Trial>, i: nat, d: nat)
    requires |xs| == |ys| && i < |xs|
    requires forall j :: 0 <= j < |xs| ==>
      |ys[j].observations| == |xs[j].observations| + if j == i then d else 0
    ensures TotalEvidence(ys) == TotalEvidence(xs) + d
  {
    var n := |xs| - 1;
    if i < n {
      TotalChange(xs[..n], ys[..n], i, d);
    } else {
      TotalSame(xs[..n], ys[..n]);
    }
  }

  lemma {:induction false} TotalSame(xs: seq<Trial>, ys: seq<Trial>)
    requires |xs| == |ys|
    requires forall j :: 0 <= j < |xs| ==> |ys[j].observations| == |xs[j].observations|
    ensures TotalEvidence(ys) == TotalEvidence(xs)
  {
    if xs != [] {
      TotalSame(xs[..|xs| - 1], ys[..|ys| - 1]);
    }
  }

  lemma DeliveredGrowth(s: Study, i: nat, o: Observation)
    requires Inv(s) && i < |s.trials| && MayReport(s, i, o)
    ensures |Record(s.trials[i].observations, o)| == |s.trials[i].observations| + if Answers(s, i, o) then 1 else 0
  {
    var t := s.trials[i];
    assert TrialOk(s.assignments, t) && TrialInv(s.cfg, s.assignments, t);
    assert KeyOk(s.cfg, s.assignments, t, o.key);
    RecordUnique(t.observations, o);
  }

  /** The evidence grows by exactly one for an answered allocation and not otherwise. */
  lemma StepEvidence(s: Study, e: Event)
    requires Inv(s) && Enabled(s, e)
    ensures TotalEvidence(Apply(s, e).trials) ==
      TotalEvidence(s.trials) + if e.Deliver? && Answers(s, e.i, e.o) then 1 else 0
  {
    var ys := Apply(s, e).trials;
    if e.Enroll? {
      assert ys[..|s.trials|] == s.trials;
    } else {
      assert |ys| == |s.trials| by { StepKeepsLength(s, e); }
      if e.Deliver? {
        DeliveredGrowth(s, e.i, e.o);
      }
      var d := if e.Deliver? && Answers(s, e.i, e.o) then 1 else 0;
      forall j | 0 <= j < |s.trials|
        ensures |ys[j].observations| == |s.trials[j].observations| + if e.Deliver? && e.i == j then d else 0
      {
        StepKeepsEvidence(s, e, j);
      }
      if e.Deliver? {
        TotalChange(s.trials, ys, e.i, d);
      } else {
        TotalSame(s.trials, ys);
      }
    }
  }

  lemma StepKeepsLength(s: Study, e: Event)
    requires Enabled(s, e) && !e.Enroll?
    ensures |Apply(s, e).trials| == |s.trials|
  {
    if e.Ask? {
      assert Next(s, e.confirm).0.trials == Yielded(s, e.confirm).trials;
    }
  }

  lemma {:induction false} TrainingsCount(s: Study, es: seq<Event>)
    requires Inv(s) && Disciplined(s, es)
    ensures TotalEvidence(Run(s, es).trials) == TotalEvidence(s.trials) + |Trainings(s, es)|
    decreases |es|
  {
    if es != [] {
      StepKeepsInv(s, es[0]);
      StepEvidence(s, es[0]);
      TrainingsCount(Apply(s, es[0]), es[1..]);
    }
  }

  /** What T trials and S seeds can train at most, T * (S + 2). */
  function Capacity(s: Study): nat {
    |s.trials| * (|s.cfg.seeds| + 2)
  }

  lemma EvidenceFits(s: Study)
    requires Inv(s)
    ensures TotalEvidence(s.trials) <= Capacity(s)
  {
    forall i | 0 <= i < |s.trials| ensures |s.trials[i].observations| <= |s.cfg.seeds| + 2 {
      EvidenceBound(s, i);
    }
    TotalBound(s.trials, |s.cfg.seeds| + 2);
  }

  /**
    Termination and no double training: whatever the interleaving of crashes, claims, reports and
    redone evidence, no (trial, stage, seed) is trained twice, and a study of T trials and S seeds
    trains at most T * (S + 2) times.
    */
  lemma {:induction false} RunTrainsEachKeyOnce(cfg: Config, es: seq<Event>)
    requires Disciplined(EmptyStudy(cfg), es)
    ensures var ts := Trainings(EmptyStudy(cfg), es);
      && (forall x, y :: 0 <= x < y < |ts| ==> ts[x] != ts[y])
      && |ts| <= Capacity(Run(EmptyStudy(cfg), es))
  {
    TrainingsAreFresh(EmptyStudy(cfg), es);
    RunFits(cfg, es);
  }

  lemma {:induction false} RunFits(cfg: Config, es: seq<Event>)
    requires Disciplined(EmptyStudy(cfg), es)
    ensures |Trainings(EmptyStudy(cfg), es)| <= Capacity(Run(EmptyStudy(cfg), es))
  {
    ReachableInv(cfg, es);
    RunCount(cfg, es);
    EvidenceFits(Run(EmptyStudy(cfg), es));
  }

  lemma {:induction false} RunCount(cfg: Config, es: seq<Event>)
    requires Disciplined(EmptyStudy(cfg), es)
    ensures |Trainings(EmptyStudy(cfg), es)| == TotalEvidence(Run(EmptyStudy(cfg), es).trials)
  {
    TrainingsCount(EmptyStudy(cfg), es);
  }

  /** What is handed out is claimable, recorded, and not trained yet. */
  lemma NextOffersUntrained(s: Study, confirm: bool)
    requires Inv(s) && Next(s, confirm).1.Some?
    ensures var r, a := Next(s, confirm).0, Next(s, confirm).1.value;
      && Outstanding(a.status) && (IsFull(a.key.stage) ==> confirm)
      && Slot(r.assignments, a.trialId, a.key) == Some(a.status)
      && !Observed(r, a.trialId, a.key) && !Observed(s, a.trialId, a.key)
  {
    var r, a := Next(s, confirm).0, Next(s, confirm).1.value;
    NextKeepsInv(s, confirm);
    YieldedKeepsInv(s, confirm);
    GrantIsOpen(Yielded(s, confirm), confirm, PaperPending(s.trials, confirm));
    RecordIsSlot(r, a);
    OpenIsUnobserved(r, a.trialId, a.key);
    if Observed(s, a.trialId, a.key) {
      StepKeepsObserved(s, Ask(confirm), a.trialId, a.key);
    }
  }

  /** A listed record is the one found under its own trial and key. */
  lemma RecordIsSlot(s: Study, a: Assignment)
    requires Inv(s) && a in s.assignments
    ensures Slot(s.assignments, a.trialId, a.key) == Some(a.status)
  {
    var j :| 0 <= j < |s.assignments| && s.assignments[j] == a;
    SlotOf(s.assignments, j);
  }

  lemma OpenIsUnobserved(s: Study, id: string, k: Key)
    requires Inv(s) && Slot(s.assignments, id, k).Some? && !Consumed(Slot(s.assignments, id, k).value)
    ensures !Observed(s, id, k)
  {
    forall i | 0 <= i < |s.trials| && s.trials[i].card.id == id ensures At(s.trials[i], k).None? {
      assert TrialInv(s.cfg, s.assignments, s.trials[i]);
      assert KeyOk(s.cfg, s.assignments, s.trials[i], k);
    }
  }

  /** Issuing a parked trial's choice hands out an issued record. */
  lemma IssueIsOpen(s: Study, i: nat, confirm: bool)
    requires Inv(s) && i < |s.trials| && Choice(s.cfg, s.trials[i], confirm).Some?
    ensures var k := Choice(s.cfg, s.trials[i], confirm).value;
      && 1 <= k.seed <= |s.cfg.seeds| && (IsFull(k.stage) ==> confirm)
      && IsFor(Issue(s, i, k).1, s.trials[i].card.id, k)
      && Issue(s, i, k).1 in Issue(s, i, k).0.assignments && Outstanding(Issue(s, i, k).1.status)
  {
    var t := s.trials[i];
    assert TrialInv(s.cfg, s.assignments, t) && TrialOk(s.assignments, t);
    ChoiceIsParked(s.cfg, s.assignments, t, confirm);
    ChoiceSeed(s.cfg, t, confirm);
    var k := Choice(s.cfg, t, confirm).value;
    assert KeyOk(s.cfg, s.assignments, t, k);
    if FindKey(s.assignments, t.card.id, k).Some? {
      var j := FindKey(s.assignments, t.card.id, k).value;
      assert Issue(s, i, k).0.assignments[j] == Issue(s, i, k).1;
    }
  }

  lemma {:induction false} GrantIsOpen(y: Study, confirm: bool, paperOnly: bool)
    requires Inv(y) && Grant(y, confirm, paperOnly).1.Some?
    ensures Grant(y, confirm, paperOnly).1.value in Grant(y, confirm, paperOnly).0.assignments
    ensures Outstanding(Grant(y, confirm, paperOnly).1.value.status)
    ensures IsFull(Grant(y, confirm, paperOnly).1.value.key.stage) ==> confirm
  {
    if Recoverable(y.trials, y.assignments, confirm, paperOnly).None? {
      IssueIsOpen(y, Select(y, Order(y.trials, paperOnly), confirm).value, confirm);
    }
  }
}
