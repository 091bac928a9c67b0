/**
  The scheduler object: the study's lists are fields that its methods rebuild entry by entry.  Every
  method is proved to leave behind exactly what the functions of `AshaSpec` and `Registration` say,
  so the theorems about those functions are theorems about this object.
  */
module AshaScheduler {
  import opened Options
  import opened AshaTypes
  import opened AssignmentIds
  import opened StableSort
  import opened Promotion
  import Spec = AshaSpec
  import opened AshaBookkeeping
  import opened Registration
  import opened AshaConfluence
  import Confidence

  lemma {:induction false} FindIs(trials: seq<Trial>, id: string, i: nat)
    requires i < |trials| && trials[i].card.id == id
    requires forall j :: 0 <= j < i ==> trials[j].card.id != id
    ensures Spec.Find(trials, id) == Some(i)
  {
    var n := |trials| - 1;
    if i < n {
      FindIs(trials[..n], id, i);
    } else {
      FindNone(trials[..n], id);
    }
  }

  lemma NoFullChoice(s: Study, order: seq<nat>)
    requires forall p :: 0 <= p < |order| ==> order[p] < |s.trials|
    ensures Spec.FirstAt(s, order, false, FullConfirmation).None?
    ensures Spec.FirstAt(s, order, false, FullSeed1).None?
  {
  }

  /** Looking at one more assignment defers its trial once more, or changes nothing. */
  lemma DeferStep(asgs: seq<Assignment>, j: nat, t: Trial)
    requires j < |asgs|
    ensures var before, after := Spec.DeferTrial(asgs[..j], t), Spec.DeferTrial(asgs[..j + 1], t);
      after ==
      if !t.card.paper && asgs[j].trialId == t.card.id && Outstanding(asgs[j].status) then
        before.(status := DeferredState(asgs[j].key.stage).0, pending := DeferredState(asgs[j].key.stage).1,
                deferredForPaper := true)
      else before
  {
    assert asgs[..j + 1][..j] == asgs[..j];
  }

  /** The trials once assignment a has been looked at by the deferral pass. */
  function PutBackTrials(trials: seq<Trial>, a: Assignment): (r: seq<Trial>)
    ensures |r| == |trials|
  {
    var i := Spec.Find(trials, a.trialId);
    if !Outstanding(a.status) || i.None? || trials[i.value].card.paper then trials
    else
      trials[i.value := trials[i.value].(status := DeferredState(a.key.stage).0,
                                         pending := DeferredState(a.key.stage).1,
                                         deferredForPaper := true)]
  }

  lemma PutBackStep(s: Study, trials: seq<Trial>, j: nat)
    requires UniqueIds(s.trials) && SameIds(s.trials, trials) && j < |s.assignments|
    requires Spec.Find(s.trials, s.assignments[j].trialId).Some?
    requires forall m :: 0 <= m < |trials| ==> trials[m] == Spec.DeferTrial(s.assignments[..j], s.trials[m])
    ensures forall m :: 0 <= m < |trials| ==>
      PutBackTrials(trials, s.assignments[j])[m] == Spec.DeferTrial(s.assignments[..j + 1], s.trials[m])
    ensures Spec.IsPaperId(trials, s.assignments[j].trialId) == Spec.IsPaperId(s.trials, s.assignments[j].trialId)
  {
    FindSame(s.trials, trials, s.assignments[j].trialId);
    forall m | 0 <= m < |trials|
      ensures PutBackTrials(trials, s.assignments[j])[m] == Spec.DeferTrial(s.assignments[..j + 1], s.trials[m])
    {
      DeferStep(s.assignments, j, s.trials[m]);
      FindFirst(s.trials, m);
    }
  }

  class Scheduler {
    const cfg: Config
    var trials: seq<Trial>
    var assignments: seq<Assignment>

    ghost function Study(): Study
      reads this
    {
      AshaTypes.Study(cfg, trials, assignments)
    }

    ghost predicate Consistent()
      reads this
    {
      Valid(Study())
    }

    constructor (cfg: Config)
      ensures this.cfg == cfg && trials == [] && assignments == []
      ensures Consistent() && SingleOutstanding(assignments)
    {
      this.cfg := cfg;
      trials, assignments := [], [];
    }

    /** The position of the first trial with this id. */
    method TrialIndex(id: string) returns (r: Option<nat>)
      ensures r == Spec.Find(trials, id)
    {
      var i := 0;
      while i < |trials|
        invariant 0 <= i <= |trials|
        invariant forall j :: 0 <= j < i ==> trials[j].card.id != id
      {
        if trials[i].card.id == id {
          FindIs(trials, id, i);
          return Some(i);
        }
        i := i + 1;
      }
      FindNone(trials, id);
      return None;
    }

    /** Records are looked up by their textual id; the id stands for exactly one trial and key. */
    method PersistedAssignment(id: string, ghost trialId: string, ghost key: Key) returns (r: Option<nat>)
      requires Consistent() && id == AssignmentId(trialId, key)
      ensures r == Spec.FindKey(assignments, trialId, key)
    {
      var j := 0;
      while j < |assignments|
        invariant 0 <= j <= |assignments|
        invariant forall m :: 0 <= m < j ==> !Spec.IsFor(assignments[m], trialId, key)
      {
        assert KnownAssignment(trials, assignments[j]);
        AssignmentIdInjective(assignments[j].trialId, assignments[j].key, trialId, key);
        if assignments[j].id == id {
          FindKeyOnly(assignments, j);
          return Some(j);
        }
        j := j + 1;
      }
      FindKeyNone(assignments, trialId, key);
      return None;
    }

    // report

    method FinishAssignment(trialId: string, o: Observation)
      requires Consistent()
      modifies this`assignments
      ensures assignments == Spec.FinishAssignment(old(assignments), trialId, o)
    {
      var found := PersistedAssignment(AssignmentId(trialId, o.key), trialId, o.key);
      if found.Some? {
        var a := assignments[found.value];
        a := a.(status := if o.evidence.failure != "" then AssignmentStatus.Failed else AssignmentStatus.Completed);
        a := a.(nodeId := Spec.OrElse(a.nodeId, Some(o.evidence.nodeId)));
        assignments := assignments[found.value := a];
      }
    }

    method Eliminate(i: nat, why: Reason)
      requires i < |trials|
      modifies this`trials
      ensures trials == old(trials)[i := Spec.Eliminate(old(trials[i]), why)]
    {
      trials := trials[i := trials[i].(status := Eliminated, pending := None, reason := why)];
    }

    method MoveOn(i: nat, status: TrialStatus, pending: Option<Stage>)
      requires i < |trials|
      modifies this`trials
      ensures trials == old(trials)[i := old(trials[i]).(status := status, pending := pending)]
    {
      trials := trials[i := trials[i].(status := status, pending := pending)];
    }

    method FinishPilot10(i: nat, e: Evidence)
      requires i < |trials|
      modifies this`trials
      ensures trials == old(trials)[i := Spec.FinishPilot10(cfg, old(trials[i]), e)]
    {
      var rung := cfg.pilot10;
      if rung.requirePositive && e.delta.Some? && e.delta.value <= 0.0 {
        Eliminate(i, NonPositiveDelta(Pilot10));
      } else if e.gate != Some(true) {
        Eliminate(i, RejectionOr(e.rejection, GateFailed(Pilot10)));
      } else if rung.requireTargetImprovement && e.improvedCount < 1 {
        Eliminate(i, TargetNotImproved);
      } else {
        MoveOn(i, FullPendingConfirmation, Some(FullSeed1));
      }
    }

    method FinishFullSeed1(i: nat, e: Evidence)
      requires i < |trials|
      modifies this`trials
      ensures trials == old(trials)[i := Spec.FinishFullSeed1(old(trials[i]), e)]
    {
      if e.delta.None? || e.delta.value <= 0.0 {
        Eliminate(i, NonPositiveDelta(FullSeed1));
      } else if e.gate != Some(true) {
        Eliminate(i, RejectionOr(e.rejection, GateFailed(FullSeed1)));
      } else {
        MoveOn(i, ConfirmationPending, Some(FullConfirmation));
      }
    }

    method FinishConfirmation(i: nat)
      requires i < |trials|
      modifies this`trials
      ensures trials == old(trials)[i := Spec.FinishConfirmation(cfg, old(trials[i]))]
    {
      var t := trials[i];
      if !Spec.AllSeedsObserved(cfg, t) {
        MoveOn(i, ConfirmationPending, Some(FullConfirmation));
        return;
      }
      var es := Spec.SeedEvidence(cfg, t);
      var complete := Spec.AllPositive(es);
      if complete && Confidence.LowerBoundPositive(Spec.Deltas(es)) {
        MoveOn(i, Confirmed, None);
      } else {
        Eliminate(i, if complete then IntervalNotPositive else NotConsistentlyPositive);
      }
    }

    /** One class of the refresh: a pass that eliminates, then a pass over the best `slots`. */
    method RefreshClass(paper: bool)
      modifies this`trials
      ensures trials == Promotion.RefreshClass(cfg, old(trials), paper)
    {
      var rung := cfg.pilot3;
      ghost var xs := trials;
      var i := 0;
      while i < |trials|
        invariant 0 <= i <= |trials| == |xs|
        invariant forall j :: 0 <= j < i ==> trials[j] == ScreenClass(cfg, xs, paper)[j]
        invariant forall j :: i <= j < |xs| ==> trials[j] == xs[j]
      {
        var t := trials[i];
        if t.card.paper == paper && Measured(t) {
          var e := At(t, P3).value;
          if rung.noiseFloor.Some? && e.delta.value < NoiseFloor(rung.noiseFloor.value, t.card) {
            Eliminate(i, BelowNoiseFloor);
          } else if rung.requirePositive && e.delta.value <= 0.0 {
            Eliminate(i, NonPositiveDelta(Pilot3));
          } else if e.gate == Some(false) {
            Eliminate(i, RejectionOr(e.rejection, GateFailed(Pilot3)));
          }
        }
        i := i + 1;
      }
      assert trials == ScreenClass(cfg, xs, paper);
      PromoteBest(paper);
    }

    /** The best `slots` eligible trials move on, best first. */
    method PromoteBest(paper: bool)
      modifies this`trials
      ensures trials == PromoteClass(cfg, old(trials), paper)
    {
      ghost var ys := trials;
      var ranked := SortDesc(Candidates(trials, paper));
      var slots := Slots(cfg, trials, paper);
      WinnersAreEligible(cfg, ys, paper);
      var p := 0;
      while p < slots
        invariant 0 <= p <= slots && |trials| == |ys|
        invariant forall j :: 0 <= j < |ys| ==>
          trials[j] == if Promotable(ys[j]) && AmongFirst(ranked, p, j) then Promote(ys[j]) else ys[j]
      {
        var w := ranked[p].item;
        assert ranked[p] == Winners(cfg, ys, paper)[p];
        assert Names(ys, paper, ranked[p]);
        forall j: nat ensures AmongFirst(ranked, p + 1, j) <==> AmongFirst(ranked, p, j) || j == w {
          if j == w { assert ranked[p].item == j; }
        }
        if Promotable(trials[w]) {
          trials := trials[w := trials[w].(status := PromotionPending, pending := Some(Pilot10))];
        }
        p := p + 1;
      }
      forall j | 0 <= j < |ys| ensures trials[j] == PromoteClass(cfg, ys, paper)[j] {
        assert AmongFirst(ranked, slots, j) <==> Wins(cfg, ys, paper, j) by {
          if q :| 0 <= q < slots && ranked[q].item == j {
            assert Winners(cfg, ys, paper)[q].item == j;
          }
          if q :| 0 <= q < |Winners(cfg, ys, paper)| && Winners(cfg, ys, paper)[q].item == j {
            assert ranked[q].item == j;
          }
        }
      }
    }

    static ghost predicate AmongFirst(ranked: seq<Keyed<nat>>, n: nat, j: nat)
      requires n <= |ranked|
    {
      exists q :: 0 <= q < n && ranked[q].item == j
    }

    method RefreshPilot3Promotions()
      modifies this`trials
      ensures trials == Refresh(cfg, old(trials))
    {
      RefreshClass(true);
      RefreshClass(false);
    }

    /** Move a trial that has just recorded o to where o puts it. */
    method SettleTrial(i: nat, o: Observation)
      requires i < |trials|
      modifies this`trials
      ensures var settled := old(trials)[i := Spec.Settle(cfg, old(trials[i]), o)];
        trials == if Spec.Refreshes(o) then Refresh(cfg, settled) else settled
    {
      var e := o.evidence;
      if e.failure != "" {
        trials := trials[i := trials[i].(status := TrialStatus.Failed, pending := None, reason := Text(e.failure))];
      } else if !e.complete || e.delta.None? || !e.verified || !e.pairedVerified {
        MoveOn(i, NeedsEvidence, Some(o.key.stage));
      } else {
        match o.key.stage
        case Pilot3 =>
          MoveOn(i, Waiting, None);
          RefreshPilot3Promotions();
        case Pilot10 => FinishPilot10(i, e);
        case FullSeed1 => FinishFullSeed1(i, e);
        case FullConfirmation => FinishConfirmation(i);
      }
    }

    /** Import one rung result; false for an unknown trial. */
    method Report(trialId: string, o: Observation) returns (known: bool)
      requires Consistent()
      modifies this
      ensures known == Spec.Find(old(trials), trialId).Some?
      ensures Study() ==
        if known then Spec.Report(old(Study()), Spec.Find(old(trials), trialId).value, o) else old(Study())
      ensures Consistent()
      ensures old(SingleOutstanding(assignments)) ==> SingleOutstanding(assignments)
    {
      var found := TrialIndex(trialId);
      if found.None? {
        return false;
      }
      hide Valid, SingleOutstanding, Refresh, Spec.Settle, Record, Spec.FinishAssignment;
      var i := found.value;
      ReportKeepsValid(Study(), i, o);
      ghost var xs := trials;
      FinishAssignment(trialId, o);
      trials := trials[i := trials[i].(observations := Record(trials[i].observations, o))];
      ghost var recorded := trials[i];
      SettleTrial(i, o);
      assert xs[i := recorded][i := Spec.Settle(cfg, recorded, o)] == xs[i := Spec.Settle(cfg, recorded, o)];
      known := true;
    }

    // next_assignment

    method HasExecutablePaperTrial(confirm: bool) returns (b: bool)
      ensures b == Spec.PaperPending(trials, confirm)
    {
      var i := 0;
      while i < |trials|
        invariant 0 <= i <= |trials|
        invariant forall j :: 0 <= j < i ==> !(trials[j].card.paper && Spec.RunnableStatus(trials[j].status, confirm))
      {
        if trials[i].card.paper && Spec.RunnableStatus(trials[i].status, confirm) {
          return true;
        }
        i := i + 1;
      }
      return false;
    }

    /** Put one outstanding native assignment back together with its trial. */
    method PutBack(j: nat)
      requires j < |assignments| && Outstanding(assignments[j].status)
      requires Spec.Find(trials, assignments[j].trialId).Some?
      modifies this
      ensures assignments == old(assignments)[j := Spec.DeferAssignment(old(trials), old(assignments[j]))]
      ensures trials == PutBackTrials(old(trials), old(assignments[j]))
    {
      var a := assignments[j];
      var found := TrialIndex(a.trialId);
      var i := found.value;
      if !trials[i].card.paper {
        assignments := assignments[j := a.(status := Deferred)];
        var put := DeferredState(a.key.stage);
        trials := trials[i := trials[i].(status := put.0, pending := put.1, deferredForPaper := true)];
      }
    }

    /** Walk the assignments and put back every outstanding native one. */
    method DeferNativeOutstandingAssignments(paperPending: bool)
      requires Consistent()
      modifies this
      ensures Study() == if paperPending then Spec.DeferNative(old(Study())) else old(Study())
    {
      if !paperPending {
        return;
      }
      ghost var s := Study();
      var j := 0;
      while j < |assignments|
        invariant 0 <= j <= |assignments| == |s.assignments| && |trials| == |s.trials|
        invariant forall m :: 0 <= m < j ==> assignments[m] == Spec.DeferAssignment(s.trials, s.assignments[m])
        invariant forall m :: j <= m < |assignments| ==> assignments[m] == s.assignments[m]
        invariant forall i :: 0 <= i < |trials| ==> trials[i] == Spec.DeferTrial(s.assignments[..j], s.trials[i])
      {
        assert KnownAssignment(s.trials, s.assignments[j]);
        assert SameIds(s.trials, trials);
        FindSame(s.trials, trials, s.assignments[j].trialId);
        PutBackStep(s, trials, j);
        if Outstanding(assignments[j].status) {
          PutBack(j);
        }
        j := j + 1;
      }
      assert s.assignments[..j] == s.assignments;
      assert assignments == Spec.DeferNative(s).assignments;
      assert trials == Spec.DeferNative(s).trials;
    }

    /** The first assignment that may be handed out again. */
    method RecoverableAssignment(confirm: bool, paperOnly: bool) returns (r: Option<Assignment>)
      ensures r == Spec.Recoverable(trials, assignments, confirm, paperOnly)
    {
      var j := 0;
      while j < |assignments|
        invariant 0 <= j <= |assignments|
        invariant Spec.Recoverable(trials, assignments, confirm, paperOnly)
               == Spec.Recoverable(trials, assignments[j..], confirm, paperOnly)
      {
        assert assignments[j..][1..] == assignments[j + 1..];
        if Spec.CanRecover(trials, assignments[j], confirm, paperOnly) {
          return Some(assignments[j]);
        }
        j := j + 1;
      }
      return None;
    }

    /** The first configured confirmation seed without an observation. */
    method MissingSeed(t: Trial) returns (k: nat)
      ensures k == Spec.MissingSeedFrom(cfg, t, 2)
    {
      k := 2;
      while k <= |cfg.seeds| && At(t, Key(FullConfirmation, k)).Some?
        invariant 2 <= k <= |cfg.seeds| + 1
        invariant Spec.MissingSeedFrom(cfg, t, 2) == Spec.MissingSeedFrom(cfg, t, k)
      {
        k := k + 1;
      }
    }

    /** The first trial in the order with a confirmation seed still to train. */
    method NextConfirmation(order: seq<nat>) returns (r: Option<(nat, Key)>)
      requires forall p :: 0 <= p < |order| ==> order[p] < |trials|
      ensures var f := Spec.FirstAt(Study(), order, true, FullConfirmation);
        r == if f.Some? then Some((f.value, Spec.Choice(cfg, trials[f.value], true).value)) else None
    {
      var p := 0;
      while p < |order|
        invariant 0 <= p <= |order|
        invariant Spec.FirstAt(Study(), order, true, FullConfirmation)
               == Spec.FirstAt(Study(), order[p..], true, FullConfirmation)
      {
        assert order[p..][1..] == order[p + 1..];
        var t := trials[order[p]];
        if t.status.ConfirmationPending? {
          var k := MissingSeed(t);
          if k <= |cfg.seeds| {
            return Some((order[p], Key(FullConfirmation, k)));
          }
        }
        p := p + 1;
      }
      return None;
    }

    /** The first trial in the order whose allocation at stage st is due. */
    method FirstDue(order: seq<nat>, confirm: bool, st: Stage) returns (r: Option<nat>)
      requires forall p :: 0 <= p < |order| ==> order[p] < |trials|
      requires !st.FullConfirmation? && (st.FullSeed1? ==> confirm)
      ensures r == Spec.FirstAt(Study(), order, confirm, st)
      ensures r.Some? ==> Spec.Choice(cfg, trials[r.value], confirm) == Some(Key(st, 1))
    {
      var p := 0;
      while p < |order|
        invariant 0 <= p <= |order|
        invariant Spec.FirstAt(Study(), order, confirm, st) == Spec.FirstAt(Study(), order[p..], confirm, st)
      {
        assert order[p..][1..] == order[p + 1..];
        var t := trials[order[p]];
        var due := match st
          case Pilot3 => t.status.Waiting? && t.pending == Some(Pilot3) && At(t, P3).None?
          case Pilot10 => t.status.PromotionPending? && t.pending == Some(Pilot10)
          case _ => t.status.FullPendingConfirmation?;
        if due {
          return Some(order[p]);
        }
        p := p + 1;
      }
      return None;
    }

    /** Reopen or create the record for this key. */
    method Assign(i: nat, k: Key) returns (a: Assignment)
      requires Consistent() && i < |trials| && 1 <= k.seed <= |cfg.seeds|
      modifies this`assignments
      ensures (Study(), a) == Spec.Issue(old(Study()), i, k)
    {
      var t := trials[i];
      a := Assignment(AssignmentId(t.card.id, k), t.card.id, t.card.candidateId, k, cfg.seeds[k.seed - 1],
                      cfg.Spec(k.stage).epochs, cfg.Spec(k.stage).fraction, Issued, None, None);
      var existing := PersistedAssignment(a.id, t.card.id, k);
      if existing.Some? {
        var j := existing.value;
        if assignments[j].status.Deferred? {
          assignments := assignments[j := assignments[j].(status := Issued, runId := None, nodeId := None)];
        }
        assert assignments == old(assignments)[j := assignments[j]];
        return assignments[j];
      }
      assignments := assignments + [a];
    }

    /** What the pilots offer next, or nothing. */
    method SelectPilot(order: seq<nat>, confirm: bool) returns (r: Option<(nat, Key)>)
      requires forall p :: 0 <= p < |order| ==> order[p] < |trials|
      ensures var a := Spec.FirstAt(Study(), order, confirm, Pilot3);
        var b := Spec.FirstAt(Study(), order, confirm, Pilot10);
        r == if a.Some? then Some((a.value, P3)) else if b.Some? then Some((b.value, P10)) else None
      ensures r.Some? ==> r.value.0 < |trials| && Spec.Choice(cfg, trials[r.value.0], confirm) == Some(r.value.1)
    {
      var pilot3 := FirstDue(order, confirm, Pilot3);
      if pilot3.Some? {
        return Some((pilot3.value, P3));
      }
      var pilot10 := FirstDue(order, confirm, Pilot10);
      return if pilot10.Some? then Some((pilot10.value, P10)) else None;
    }

    /** What the ladder offers next, or nothing. */
    method SelectNext(order: seq<nat>, confirm: bool) returns (r: Option<(nat, Key)>)
      requires forall p :: 0 <= p < |order| ==> order[p] < |trials|
      ensures var pick := Spec.Select(Study(), order, confirm);
        r == if pick.Some? then Some((pick.value, Spec.Choice(cfg, trials[pick.value], confirm).value)) else None
    {
      if confirm {
        r := NextConfirmation(order);
        if r.Some? {
          return;
        }
        var full := FirstDue(order, confirm, FullSeed1);
        if full.Some? {
          return Some((full.value, FULL1));
        }
      } else {
        NoFullChoice(Study(), order);
      }
      r := SelectPilot(order, confirm);
    }

    /** Issue or recover one assignment. */
    method NextAssignment(confirm: bool) returns (r: Option<Assignment>)
      requires Consistent()
      modifies this
      ensures (Study(), r) == Spec.Next(old(Study()), confirm)
      ensures Consistent()
      ensures old(SingleOutstanding(assignments)) ==> SingleOutstanding(assignments)
    {
      ghost var s := Study();
      NextKeepsValid(s, confirm);
      YieldedKeepsValid(s, confirm);
      var paperPending := HasExecutablePaperTrial(confirm);
      DeferNativeOutstandingAssignments(paperPending);
      assert Study() == Spec.Yielded(s, confirm);
      r := GrantAssignment(confirm, paperPending);
    }

    /** Recover an outstanding assignment, or else issue the next one the ladder offers. */
    method GrantAssignment(confirm: bool, paperOnly: bool) returns (r: Option<Assignment>)
      requires Consistent()
      modifies this
      ensures (Study(), r) == Spec.Grant(old(Study()), confirm, paperOnly)
    {
      r := RecoverableAssignment(confirm, paperOnly);
      if r.Some? {
        return;
      }
      var pick := SelectNext(Spec.Order(trials, paperOnly), confirm);
      if pick.Some? {
        ChoiceSeed(cfg, trials[pick.value.0], confirm);
        var a := Assign(pick.value.0, pick.value.1);
        r := Some(a);
      }
    }

    // mark_running

    /** Claim an issued assignment, or resume the execution it is bound to. */
    method MarkRunning(trialId: string, k: Key, run: Option<string>, node: Option<string>)
      returns (error: Option<Spec.MarkError>)
      requires Consistent()
      modifies this
      ensures match Spec.MarkRunning(old(Study()), trialId, k, run, node)
        case Ok(s) => error == None && Study() == s
        case Err(e) => error == Some(e) && Study() == old(Study())
      ensures Consistent()
      ensures old(SingleOutstanding(assignments)) && Spec.Slot(old(assignments), trialId, k) != Some(Deferred) ==>
        SingleOutstanding(assignments)
    {
      ghost var s := Study();
      if Spec.MarkRunning(s, trialId, k, run, node).Ok? {
        MarkKeepsValid(s, trialId, k, run, node);
      }
      var found := PersistedAssignment(AssignmentId(trialId, k), trialId, k);
      if found.None? {
        return Some(Spec.UnknownAssignment);
      }
      var a := assignments[found.value];
      if a.status.Completed? || a.status.Failed? {
        return Some(Spec.AlreadyConsumed);
      }
      if a.status.Running? {
        if Spec.Conflicts(run, a.runId) || Spec.Conflicts(node, a.nodeId) {
          return Some(Spec.BoundElsewhere);
        }
      }
      var index := TrialIndex(trialId);
      if index.None? {
        return Some(Spec.UnknownTrial);
      }
      a := a.(status := AssignmentStatus.Running);
      a := a.(runId := Spec.OrElse(a.runId, run), nodeId := Spec.OrElse(a.nodeId, node));
      assignments := assignments[found.value := a];
      MoveOn(index.value, TrialStatus.Running, Some(k.stage));
      error := None;
    }

    // Evidence-only trials and failed controls

    method CloseOutstanding(trialId: string, node: string, succeeded: bool)
      modifies this`assignments
      ensures |assignments| == |old(assignments)|
      ensures forall m :: 0 <= m < |assignments| ==>
        assignments[m] == Spec.CloseFor(old(assignments)[m], trialId, node, succeeded)
    {
      ghost var asgs := assignments;
      var j := 0;
      while j < |assignments|
        invariant 0 <= j <= |assignments| == |asgs|
        invariant forall m :: 0 <= m < j ==> assignments[m] == Spec.CloseFor(asgs[m], trialId, node, succeeded)
        invariant forall m :: j <= m < |assignments| ==> assignments[m] == asgs[m]
      {
        var a := assignments[j];
        if a.trialId == trialId && Outstanding(a.status) {
          a := a.(status := if succeeded then AssignmentStatus.Completed else AssignmentStatus.Failed);
          assignments := assignments[j := a.(nodeId := Spec.OrElse(a.nodeId, Some(node)))];
        }
        j := j + 1;
      }
    }

    /** Close whatever is outstanding for a trial that carries no ranking evidence. */
    method CompleteEvidenceOnlyTrial(trialId: string, node: string, why: string, succeeded: bool) returns (known: bool)
      requires Consistent()
      modifies this
      ensures known == Spec.Find(old(trials), trialId).Some?
      ensures Study() ==
        if known then
          Spec.CompleteEvidenceOnly(old(Study()), Spec.Find(old(trials), trialId).value, node, why, succeeded)
        else old(Study())
      ensures Consistent()
    {
      var found := TrialIndex(trialId);
      if found.None? {
        return false;
      }
      ghost var s := Study();
      CompleteKeepsValid(s, found.value, node, why, succeeded);
      CloseOutstanding(trialId, node, succeeded);
      assert assignments == Spec.CompleteEvidenceOnly(s, found.value, node, why, succeeded).assignments;
      trials := trials[found.value := trials[found.value].(
        status := if succeeded then Eliminated else TrialStatus.Failed, pending := None, reason := Text(why))];
      known := true;
    }

    /** Block every trial bound to one failed control; the ids of the blocked trials, in order. */
    method FailMatchedControl(protocol: string, cause: string) returns (affected: seq<string>)
      requires Consistent()
      modifies this`trials
      ensures Study() == Spec.FailMatchedControl(old(Study()), protocol, cause)
      ensures affected == BoundIds(old(trials), protocol)
      ensures Consistent()
    {
      ghost var s := Study();
      FailControlKeepsValid(s, protocol, cause);
      hide Valid;
      affected := [];
      var i := 0;
      while i < |trials|
        invariant 0 <= i <= |trials| == |s.trials|
        invariant forall m :: 0 <= m < i ==> trials[m] == Spec.BlockOnControl(s.trials[m], protocol, cause)
        invariant forall m :: i <= m < |trials| ==> trials[m] == s.trials[m]
        invariant affected == BoundIds(s.trials[..i], protocol)
      {
        var t := trials[i];
        assert s.trials[..i + 1][..i] == s.trials[..i];
        if t.card.plan.Some? && t.card.plan.value.protocol == protocol {
          trials := trials[i := t.(status := NeedsEvidence, pending := None, reason := ControlFailed(cause),
            card := t.card.(blockers := t.card.blockers + {"matched_control_failed:" + cause}))];
          affected := affected + [t.card.id];
        }
        i := i + 1;
      }
      assert s.trials[..i] == s.trials;
      assert trials == Spec.FailMatchedControl(s, protocol, cause).trials;
    }

    static function BoundIds(trials: seq<Trial>, protocol: string): seq<string> {
      if trials == [] then []
      else
        var last := trials[|trials| - 1];
        BoundIds(trials[..|trials| - 1], protocol)
        + (if Spec.BoundToControl(last, protocol) then [last.card.id] else [])
    }

    // Registration

    /** Store a trial and let the circuit breaker count the candidate's earlier adapter failures. */
    method ApplyCircuitBreaker(i: nat)
      requires i < |trials|
      modifies this`trials
      ensures trials == old(trials)[i := Broken(old(trials), old(trials[i]))]
    {
      var t := trials[i];
      if !t.status.Waiting? || !t.card.paper {
        return;
      }
      var prior := 0;
      var j := 0;
      while j < |trials|
        invariant 0 <= j <= |trials| && prior == PriorFailures(trials[..j], t) && trials == old(trials)
      {
        assert trials[..j + 1][..j] == trials[..j];
        if PriorFailure(t, trials[j]) {
          prior := prior + 1;
        }
        j := j + 1;
      }
      assert trials[..j] == trials;
      if prior < ADAPTER_CIRCUIT_BREAKER_LIMIT {
        return;
      }
      trials := trials[i := t.(status := TrialStatus.Failed, pending := None, reason := CircuitBreakerOpen(prior))];
    }

    /** A known identity registers again: reservations are activated, others only gain a plan. */
    method AdmitAgain(i: nat, q: Request, resource: bool) returns (error: Option<RegisterError>)
      requires i < |trials|
      modifies this`trials
      ensures error ==
        if !IsPreRegistered(old(trials[i])) && PlanConflict(old(trials[i]), PlanOf(q)) then Some(PlanChanged) else None
      ensures error.Some? ==> trials == old(trials)
      ensures error.None? ==> trials == old(trials)[i := Readmitted(old(trials[i]), q, resource)]
    {
      if IsPreRegistered(trials[i]) {
        if resource {
          trials := trials[i := Resourced(trials[i], q)];
        }
        trials := trials[i := Activated(trials[i], q)];
      } else if PlanConflict(trials[i], PlanOf(q)) {
        return Some(PlanChanged);
      } else {
        trials := trials[i := Attached(trials[i], PlanOf(q))];
      }
      trials := trials[i := Merged(trials[i], q)];
      error := None;
    }

    /** Re-register or append under a decided id, then apply the circuit breaker. */
    method EnterTrial(id: string, byId: Option<nat>, q: Request) returns (r: Result<nat, RegisterError>)
      requires byId.Some? ==> byId.value < |trials|
      modifies this`trials
      ensures match Enter(old(Study()), id, byId, q)
        case Ok(p) => r == Ok(p.1) && Study() == p.0
        case Err(e) => r == Err(e) && Study() == old(Study())
    {
      var known := byId;
      if byId.None? && q.node.paperCandidate {
        known := FindFingerprint(trials, FingerprintOf(q));
      }
      var i: nat := |trials|;
      if known.Some? {
        i := known.value;
        if byId.Some? && !IsPreRegistered(trials[i]) && trials[i].card.fingerprint != FingerprintOf(q) {
          return Err(IdBound);
        }
        var error := AdmitAgain(i, q, byId.Some?);
        if error.Some? {
          return Err(error.value);
        }
      } else {
        trials := trials + [FreshTrial(id, q)];
      }
      ApplyCircuitBreaker(i);
      assert known.None? ==> trials == old(trials) + [trials[i]];
      r := Ok(i);
    }

    /** Register a candidate once, without resetting prior evidence. */
    method RegisterTrial(q: Request) returns (r: Result<nat, RegisterError>)
      requires Consistent()
      modifies this`trials
      ensures match Registration.Register(old(Study()), q)
        case Ok(p) => r == Ok(p.1) && Study() == p.0
        case Err(e) => r == Err(e) && Study() == old(Study())
      ensures Consistent() && KeepsIdentity(old(trials), trials)
    {
      ghost var s := Study();
      if Registration.Register(s, q).Ok? {
        RegisterKeepsValid(s, q);
        RegisterKeepsIdentity(s, q);
      }
      if AdmissionError(q).Some? {
        return Err(AdmissionError(q).value);
      }
      var id := q.trialId;
      var byId := TrialIndex(id);
      if byId.Some? && !IsPreRegistered(trials[byId.value]) && trials[byId.value].card.fingerprint != FingerprintOf(q) {
        if !Terminal(trials[byId.value].status) {
          return Err(IdBound);
        }
        id := id + ":" + Prefix(FingerprintOf(q), 12);
        byId := TrialIndex(id);
      }
      assert id == TargetId(s, q) && byId == Target(s, q);
      r := EnterTrial(id, byId, q);
    }

    /** Reserve a non-runnable identity for a blocked candidate. */
    method PreRegisterTrial(q: Request) returns (r: Result<nat, RegisterError>)
      requires Consistent()
      modifies this`trials
      ensures match Registration.PreRegister(old(Study()), q)
        case Ok(p) => r == Ok(p.1) && Study() == p.0
        case Err(e) => r == Err(e) && Study() == old(Study())
      ensures Consistent() && KeepsIdentity(old(trials), trials)
    {
      if q.node.inferenceOnly {
        return Err(InferenceOnly);
      }
      ghost var s := Study();
      PreRegisterKeepsValid(s, q);
      PreRegisterKeepsIdentity(s, q);
      var found := FindReservation(trials, q);
      if found.Some? {
        var i := found.value;
        if trials[i].card.readiness != Some(AshaEligible) {
          trials := trials[i := Reserved(trials[i], q)];
        }
        trials := trials[i := Merged(trials[i], q)];
        assert trials == s.trials[i := Merged(Reserved(s.trials[i], q), q)];
        return Ok(i);
      }
      trials := trials + [Reservation(q)];
      return Ok(|trials| - 1);
    }
  }
}
