/**
  The bookkeeping invariant, which every public operation keeps from every state and for every
  argument, and the single-outstanding invariant on top of it.
  */
module AshaBookkeeping {
  import opened Options
  import opened AshaTypes
  import opened AssignmentIds
  import opened Promotion
  import opened AshaSpec

  ghost predicate UniqueIds(trials: seq<Trial>) {
    forall i, j :: 0 <= i < j < |trials| ==> trials[i].card.id != trials[j].card.id
  }

  ghost predicate UniqueAssignments(asgs: seq<Assignment>) {
    forall i, j :: 0 <= i < j < |asgs| ==> !IsFor(asgs[i], asgs[j].trialId, asgs[j].key)
  }

  /** The record belongs to a registered trial and carries the id made from its own key. */
  ghost predicate KnownAssignment(trials: seq<Trial>, a: Assignment) {
    Find(trials, a.trialId).Some? && a.id == AssignmentId(a.trialId, a.key)
  }

  /** The rung a trial may be heading for, given its status. */
  predicate PendingFits(t: Trial) {
    match t.status
    case Waiting => t.pending == Some(Pilot3) || t.pending == None
    case Running => t.pending.Some?
    case PromotionPending => t.pending == Some(Pilot10)
    case FullPendingConfirmation => t.pending == Some(FullSeed1)
    case ConfirmationPending => t.pending == Some(FullConfirmation)
    case NeedsEvidence => true
    case _ => t.pending == None
  }

  /** a is a running allocation of trial id at stage st. */
  predicate Claims(a: Assignment, id: string, st: Stage) {
    a.trialId == id && a.key.stage == st && a.status.Running?
  }

  ghost predicate RunningIsClaimed(asgs: seq<Assignment>, t: Trial) {
    t.status.Running? && t.pending.Some? ==> exists a <- asgs :: Claims(a, t.card.id, t.pending.value)
  }

  ghost predicate TrialOk(asgs: seq<Assignment>, t: Trial) {
    UniqueKeys(t.observations) && PendingFits(t) && RunningIsClaimed(asgs, t)
  }

  ghost predicate Valid(s: Study) {
    && UniqueIds(s.trials)
    && UniqueAssignments(s.assignments)
    && (forall j :: 0 <= j < |s.assignments| ==> KnownAssignment(s.trials, s.assignments[j]))
    && (forall i :: 0 <= i < |s.trials| ==> TrialOk(s.assignments, s.trials[i]))
  }

  /** At most one pilot and at most one candidate_full allocation is being worked on. */
  ghost predicate SingleOutstanding(asgs: seq<Assignment>) {
    forall i, j :: 0 <= i < j < |asgs| && Outstanding(asgs[i].status) && Outstanding(asgs[j].status) ==>
      IsFull(asgs[i].key.stage) != IsFull(asgs[j].key.stage)
  }

  // Lookup facts

  lemma {:induction false} FindFirst(trials: seq<Trial>, i: nat)
    requires UniqueIds(trials) && i < |trials|
    ensures Find(trials, trials[i].card.id) == Some(i)
  {
    var n := |trials| - 1;
    if i < n {
      FindFirst(trials[..n], i);
      assert trials[..n][i] == trials[i];
    } else {
      FindNone(trials[..n], trials[n].card.id);
    }
  }

  lemma {:induction false} FindNone(trials: seq<Trial>, id: string)
    ensures Find(trials, id).None? <==> forall i :: 0 <= i < |trials| ==> trials[i].card.id != id
  {
    if trials != [] {
      var n := |trials| - 1;
      FindNone(trials[..n], id);
      if Find(trials, id).None? {
        forall i | 0 <= i < |trials| ensures trials[i].card.id != id {
          assert i < n ==> trials[..n][i] == trials[i];
        }
      }
    }
  }

  ghost predicate SameIds(xs: seq<Trial>, ys: seq<Trial>) {
    |xs| == |ys| && forall i :: 0 <= i < |xs| ==> xs[i].card.id == ys[i].card.id
  }

  ghost predicate SameCards(xs: seq<Trial>, ys: seq<Trial>) {
    |xs| == |ys| && forall i :: 0 <= i < |xs| ==> xs[i].card == ys[i].card
  }

  lemma {:induction false} FindSame(xs: seq<Trial>, ys: seq<Trial>, id: string)
    requires SameIds(xs, ys)
    ensures Find(xs, id) == Find(ys, id)
  {
    if xs != [] {
      FindSame(xs[..|xs| - 1], ys[..|ys| - 1], id);
    }
  }

  lemma {:induction false} FindKeyNone(asgs: seq<Assignment>, id: string, k: Key)
    ensures FindKey(asgs, id, k).None? <==> forall j :: 0 <= j < |asgs| ==> !IsFor(asgs[j], id, k)
  {
    if asgs != [] {
      var n := |asgs| - 1;
      FindKeyNone(asgs[..n], id, k);
      if FindKey(asgs, id, k).None? {
        forall j | 0 <= j < |asgs| ensures !IsFor(asgs[j], id, k) {
          assert j < n ==> asgs[..n][j] == asgs[j];
        }
      }
    }
  }

  lemma {:induction false} FindKeyOnly(asgs: seq<Assignment>, j: nat)
    requires UniqueAssignments(asgs) && j < |asgs|
    ensures FindKey(asgs, asgs[j].trialId, asgs[j].key) == Some(j)
  {
    var n := |asgs| - 1;
    if j < n {
      FindKeyOnly(asgs[..n], j);
      assert asgs[..n][j] == asgs[j];
    } else {
      FindKeyNone(asgs[..n], asgs[n].trialId, asgs[n].key);
    }
  }

  // What a step may do to the records without upsetting them

  /** Same records for the same trials and keys, possibly at another status or binding. */
  ghost predicate SameKeys(xs: seq<Assignment>, ys: seq<Assignment>) {
    |xs| == |ys| && forall j :: 0 <= j < |xs| ==>
      xs[j].trialId == ys[j].trialId && xs[j].key == ys[j].key && xs[j].id == ys[j].id
  }

  lemma RecordsKept(xs: seq<Trial>, ys: seq<Trial>, asgs: seq<Assignment>, asgs': seq<Assignment>)
    requires UniqueIds(xs) && UniqueAssignments(asgs)
    requires forall j :: 0 <= j < |asgs| ==> KnownAssignment(xs, asgs[j])
    requires SameIds(xs, ys) && SameKeys(asgs, asgs')
    ensures UniqueIds(ys) && UniqueAssignments(asgs')
    ensures forall j :: 0 <= j < |asgs'| ==> KnownAssignment(ys, asgs'[j])
  {
    forall i, j | 0 <= i < j < |ys| ensures ys[i].card.id != ys[j].card.id {
      assert xs[i].card.id != xs[j].card.id;
    }
    forall i, j | 0 <= i < j < |asgs'| ensures !IsFor(asgs'[i], asgs'[j].trialId, asgs'[j].key) {
      assert !IsFor(asgs[i], asgs[j].trialId, asgs[j].key);
    }
    forall j | 0 <= j < |asgs'| ensures KnownAssignment(ys, asgs'[j]) {
      assert KnownAssignment(xs, asgs[j]);
      FindSame(xs, ys, asgs[j].trialId);
    }
  }

  /** A claimed trial stays claimed while its running records are left alone. */
  lemma ClaimKept(asgs: seq<Assignment>, asgs': seq<Assignment>, t: Trial)
    requires SameKeys(asgs, asgs')
    requires forall j :: 0 <= j < |asgs| && asgs[j].status.Running? && asgs[j].trialId == t.card.id ==>
      asgs'[j].status.Running?
    requires RunningIsClaimed(asgs, t)
    ensures RunningIsClaimed(asgs', t)
  {
    if t.status.Running? && t.pending.Some? {
      var a :| a in asgs && Claims(a, t.card.id, t.pending.value);
      var j :| 0 <= j < |asgs| && asgs[j] == a;
      assert Claims(asgs'[j], t.card.id, t.pending.value);
    }
  }

  // report

  lemma SettleFits(cfg: Config, t: Trial, o: Observation)
    ensures var r := Settle(cfg, t, o);
      && PendingFits(r) && !r.status.Running?
      && r.card == t.card && r.observations == t.observations
  {
  }

  lemma RefreshKeepsTrial(cfg: Config, xs: seq<Trial>, i: nat)
    requires i < |xs| && PendingFits(xs[i])
    ensures var r := Refresh(cfg, xs)[i];
      && PendingFits(r) && r.card == xs[i].card && r.observations == xs[i].observations
      && (r.status.Running? ==> r == xs[i])
  {
    RefreshAt(cfg, xs, i);
  }

  /** The reported trial is settled, and every other trial keeps its card and evidence. */
  lemma ReportTrial(s: Study, i: nat, o: Observation, j: nat)
    requires Valid(s) && i < |s.trials| && j < |s.trials|
    ensures var t, r := s.trials[j], Report(s, i, o).trials[j];
      && PendingFits(r) && r.card == t.card
      && r.observations == (if j == i then Record(t.observations, o) else t.observations)
      && (r.status.Running? ==> j != i && r == t)
  {
    SettleFits(s.cfg, Recorded(s.trials[i], o), o);
    var settled := s.trials[i := Settle(s.cfg, Recorded(s.trials[i], o), o)];
    assert TrialOk(s.assignments, s.trials[j]);
    if Refreshes(o) {
      RefreshKeepsTrial(s.cfg, settled, j);
    }
  }

  lemma ReportedTrialOk(s: Study, i: nat, o: Observation, j: nat)
    requires Valid(s) && i < |s.trials| && j < |s.trials|
    ensures var r := Report(s, i, o);
      r.trials[j].card == s.trials[j].card && TrialOk(r.assignments, r.trials[j])
  {
    var r := Report(s, i, o);
    ReportTrial(s, i, o, j);
    assert TrialOk(s.assignments, s.trials[j]);
    RecordUnique(s.trials[j].observations, o);
    if r.trials[j].status.Running? {
      assert s.trials[i].card.id != s.trials[j].card.id;
      ClaimKept(s.assignments, r.assignments, s.trials[j]);
    }
  }

  lemma ReportKeepsValid(s: Study, i: nat, o: Observation)
    requires Valid(s) && i < |s.trials|
    ensures Valid(Report(s, i, o))
    ensures SingleOutstanding(s.assignments) ==> SingleOutstanding(Report(s, i, o).assignments)
  {
    hide TrialOk, Refresh, Settle, Record, Find;
    var r := Report(s, i, o);
    forall j | 0 <= j < |s.trials|
      ensures r.trials[j].card == s.trials[j].card && TrialOk(r.assignments, r.trials[j])
    {
      ReportedTrialOk(s, i, o, j);
    }
    RecordsKept(s.trials, r.trials, s.assignments, r.assignments);
  }

  // next_assignment

  lemma {:induction false} LastOutstandingNone(asgs: seq<Assignment>, id: string)
    ensures LastOutstanding(asgs, id).None? <==>
      forall j :: 0 <= j < |asgs| && asgs[j].trialId == id ==> !Outstanding(asgs[j].status)
  {
    if asgs != [] {
      var n := |asgs| - 1;
      LastOutstandingNone(asgs[..n], id);
      if LastOutstanding(asgs, id).None? {
        forall j | 0 <= j < |asgs| && asgs[j].trialId == id ensures !Outstanding(asgs[j].status) {
          assert j < n ==> asgs[..n][j] == asgs[j];
        }
      }
    }
  }

  lemma DeferKeepsClaims(s: Study, i: nat)
    requires UniqueIds(s.trials) && i < |s.trials|
    requires s.trials[i].card.paper || LastOutstanding(s.assignments, s.trials[i].card.id).None?
    ensures forall j :: 0 <= j < |s.assignments| && s.assignments[j].trialId == s.trials[i].card.id ==>
      DeferAssignment(s.trials, s.assignments[j]) == s.assignments[j]
  {
    FindFirst(s.trials, i);
    LastOutstandingNone(s.assignments, s.trials[i].card.id);
  }

  lemma DeferKeepsTrial(s: Study, i: nat)
    requires Valid(s) && i < |s.trials|
    ensures TrialOk(DeferNative(s).assignments, DeferNative(s).trials[i])
  {
    var r, t := DeferNative(s), s.trials[i];
    assert TrialOk(s.assignments, t);
    assert r.trials[i] == DeferTrial(s.assignments, t);
    if t.card.paper || LastOutstanding(s.assignments, t.card.id).None? {
      DeferKeepsClaims(s, i);
      ClaimKept(s.assignments, r.assignments, t);
    }
  }

  lemma DeferKeepsIds(s: Study)
    ensures SameIds(s.trials, DeferNative(s).trials)
  {
  }

  lemma YieldedKeepsValid(s: Study, confirm: bool)
    requires Valid(s)
    ensures Valid(Yielded(s, confirm))
    ensures SingleOutstanding(s.assignments) ==> SingleOutstanding(Yielded(s, confirm).assignments)
  {
    hide TrialOk, DeferTrial, PaperPending;
    if PaperPending(s.trials, confirm) {
      var r := DeferNative(s);
      DeferKeepsIds(s);
      forall i | 0 <= i < |s.trials| ensures TrialOk(r.assignments, r.trials[i]) {
        DeferKeepsTrial(s, i);
      }
      RecordsKept(s.trials, r.trials, s.assignments, r.assignments);
    }
  }

  lemma IssuedTrialOk(s: Study, i: nat, k: Key, m: nat)
    requires Valid(s) && i < |s.trials| && m < |s.trials| && 1 <= k.seed <= |s.cfg.seeds|
    ensures TrialOk(Issue(s, i, k).0.assignments, s.trials[m])
  {
    var asgs := Issue(s, i, k).0.assignments;
    assert TrialOk(s.assignments, s.trials[m]);
    if FindKey(s.assignments, s.trials[i].card.id, k).Some? {
      ClaimKept(s.assignments, asgs, s.trials[m]);
    } else {
      assert forall a <- s.assignments :: a in asgs;
    }
  }

  lemma IssueKeepsValid(s: Study, i: nat, k: Key)
    requires Valid(s) && i < |s.trials| && 1 <= k.seed <= |s.cfg.seeds|
    ensures Valid(Issue(s, i, k).0)
  {
    hide TrialOk;
    var id := s.trials[i].card.id;
    var r := Issue(s, i, k).0;
    FindKeyNone(s.assignments, id, k);
    FindFirst(s.trials, i);
    forall m | 0 <= m < |s.trials| ensures TrialOk(r.assignments, r.trials[m]) {
      IssuedTrialOk(s, i, k, m);
    }
    if FindKey(s.assignments, id, k).Some? {
      RecordsKept(s.trials, r.trials, s.assignments, r.assignments);
    }
  }

  lemma ChoiceSeed(cfg: Config, t: Trial, confirm: bool)
    requires Choice(cfg, t, confirm).Some?
    ensures var k := Choice(cfg, t, confirm).value;
      Legal(cfg, k) && 1 <= k.seed <= |cfg.seeds| && (IsFull(k.stage) ==> confirm)
  {
  }

  /** Nothing that may be handed out again means nothing of that kind is outstanding. */
  lemma {:induction false} RecoverableNone(trials: seq<Trial>, asgs: seq<Assignment>, confirm: bool, paperOnly: bool)
    ensures Recoverable(trials, asgs, confirm, paperOnly).None? <==>
      forall j :: 0 <= j < |asgs| ==> !CanRecover(trials, asgs[j], confirm, paperOnly)
  {
    if asgs != [] {
      RecoverableNone(trials, asgs[1..], confirm, paperOnly);
      if Recoverable(trials, asgs, confirm, paperOnly).None? {
        forall j | 0 <= j < |asgs| ensures !CanRecover(trials, asgs[j], confirm, paperOnly) {
          assert j > 0 ==> asgs[1..][j - 1] == asgs[j];
        }
      }
    }
  }

  /** While paper work is pending every outstanding assignment left is a paper one. */
  lemma YieldedIsPaper(s: Study, confirm: bool)
    requires Valid(s) && PaperPending(s.trials, confirm)
    ensures var y := Yielded(s, confirm);
      forall j :: 0 <= j < |y.assignments| && Outstanding(y.assignments[j].status) ==>
        IsPaperId(y.trials, y.assignments[j].trialId)
  {
    var y := DeferNative(s);
    forall j | 0 <= j < |y.assignments| && Outstanding(y.assignments[j].status)
      ensures IsPaperId(y.trials, y.assignments[j].trialId)
    {
      assert y.assignments[j] == DeferAssignment(s.trials, s.assignments[j]);
      FindSame(s.trials, y.trials, s.assignments[j].trialId);
    }
  }

  /** With nothing to recover, no outstanding assignment has the kind about to be issued. */
  lemma NothingOutstanding(s: Study, confirm: bool)
    requires Valid(s)
    requires var y, p := Yielded(s, confirm), PaperPending(s.trials, confirm);
      Recoverable(y.trials, y.assignments, confirm, p).None?
    ensures var y := Yielded(s, confirm);
      forall j :: 0 <= j < |y.assignments| && Outstanding(y.assignments[j].status) ==>
        IsFull(y.assignments[j].key.stage) && !confirm
  {
    var y, p := Yielded(s, confirm), PaperPending(s.trials, confirm);
    RecoverableNone(y.trials, y.assignments, confirm, p);
    if p {
      YieldedIsPaper(s, confirm);
    }
  }

  /** Issuing when nothing of the kind is outstanding leaves a single one outstanding. */
  lemma IssueKeepsSingle(s: Study, i: nat, k: Key)
    requires i < |s.trials| && 1 <= k.seed <= |s.cfg.seeds|
    requires SingleOutstanding(s.assignments)
    requires forall j :: 0 <= j < |s.assignments| && Outstanding(s.assignments[j].status) ==>
      IsFull(s.assignments[j].key.stage) != IsFull(k.stage)
    ensures SingleOutstanding(Issue(s, i, k).0.assignments)
  {
  }

  lemma NextKeepsValid(s: Study, confirm: bool)
    requires Valid(s)
    ensures Valid(Next(s, confirm).0)
    ensures SingleOutstanding(s.assignments) ==> SingleOutstanding(Next(s, confirm).0.assignments)
  {
    hide Valid, SingleOutstanding, Yielded, Issue, Choice;
    var y, p := Yielded(s, confirm), PaperPending(s.trials, confirm);
    YieldedKeepsValid(s, confirm);
    if Recoverable(y.trials, y.assignments, confirm, p).None? {
      var pick := Select(y, Order(y.trials, p), confirm);
      if pick.Some? {
        var t := y.trials[pick.value];
        ChoiceSeed(y.cfg, t, confirm);
        IssueKeepsValid(y, pick.value, Choice(y.cfg, t, confirm).value);
        NothingOutstanding(s, confirm);
        if SingleOutstanding(s.assignments) {
          IssueKeepsSingle(y, pick.value, Choice(y.cfg, t, confirm).value);
        }
      }
    }
  }

  // mark_running

  lemma MarkedTrialOk(s: Study, id: string, k: Key, run: Option<string>, node: Option<string>, m: nat)
    requires Valid(s) && MarkRunning(s, id, k, run, node).Ok? && m < |s.trials|
    ensures var r := MarkRunning(s, id, k, run, node).value; TrialOk(r.assignments, r.trials[m])
  {
    var r := MarkRunning(s, id, k, run, node).value;
    var j, i := FindKey(s.assignments, id, k).value, Find(s.trials, id).value;
    assert TrialOk(s.assignments, s.trials[m]);
    if m == i {
      assert Claims(r.assignments[j], id, k.stage);
    } else {
      ClaimKept(s.assignments, r.assignments, s.trials[m]);
    }
  }

  lemma MarkKeepsValid(s: Study, id: string, k: Key, run: Option<string>, node: Option<string>)
    requires Valid(s) && MarkRunning(s, id, k, run, node).Ok?
    ensures Valid(MarkRunning(s, id, k, run, node).value)
    ensures SingleOutstanding(s.assignments) && !Slot(s.assignments, id, k).value.Deferred? ==>
      SingleOutstanding(MarkRunning(s, id, k, run, node).value.assignments)
  {
    hide TrialOk;
    var r := MarkRunning(s, id, k, run, node).value;
    forall m | 0 <= m < |s.trials| ensures TrialOk(r.assignments, r.trials[m]) {
      MarkedTrialOk(s, id, k, run, node, m);
    }
    RecordsKept(s.trials, r.trials, s.assignments, r.assignments);
  }

  // complete_evidence_only_trial and fail_matched_control

  lemma CompleteKeepsValid(s: Study, i: nat, node: string, why: string, succeeded: bool)
    requires Valid(s) && i < |s.trials|
    ensures Valid(CompleteEvidenceOnly(s, i, node, why, succeeded))
    ensures SingleOutstanding(s.assignments) ==>
      SingleOutstanding(CompleteEvidenceOnly(s, i, node, why, succeeded).assignments)
  {
    var r := CompleteEvidenceOnly(s, i, node, why, succeeded);
    forall m | 0 <= m < |s.trials| ensures TrialOk(r.assignments, r.trials[m]) {
      assert TrialOk(s.assignments, s.trials[m]);
      if m != i {
        assert s.trials[m].card.id != s.trials[i].card.id;
        ClaimKept(s.assignments, r.assignments, s.trials[m]);
      }
    }
    RecordsKept(s.trials, r.trials, s.assignments, r.assignments);
  }

  lemma FailControlKeepsValid(s: Study, protocol: string, cause: string)
    requires Valid(s)
    ensures Valid(FailMatchedControl(s, protocol, cause))
  {
    var r := FailMatchedControl(s, protocol, cause);
    forall m | 0 <= m < |s.trials| ensures TrialOk(r.assignments, r.trials[m]) {
      assert TrialOk(s.assignments, s.trials[m]);
    }
    RecordsKept(s.trials, r.trials, s.assignments, r.assignments);
  }
}
