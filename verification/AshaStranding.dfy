/**
  Promotions that nobody triggers.  The class is reconsidered only by a usable pilot_3 report, so any
  other report may leave a waiting trial behind that a refresh would promote.  This module says
  exactly when.
  */
module AshaStranding {
  import opened Options
  import opened AshaTypes
  import opened StableSort
  import opened Promotion
  import opened AshaSpec
  import opened AshaBookkeeping
  import opened AshaLadder
  import opened AshaSteps
  import opened AshaPromotion

  /** A refresh would change trial j, but the study waits for something else. */
  predicate Stranded(s: Study, j: nat)
    requires j < |s.trials|
  {
    Refresh(s.cfg, s.trials)[j] != s.trials[j]
  }

  /** The trial could be promoted if its class had a slot for it. */
  predicate Promising(t: Trial) {
    Eligible(t, t.card.paper) && Promotable(t)
  }

  lemma ScreenedAlready(s: Study, paper: bool)
    requires Inv(s)
    ensures ScreenClass(s.cfg, s.trials, paper) == s.trials
  {
    forall m | 0 <= m < |s.trials| ensures Screen(s.cfg, s.trials[m]) == s.trials[m] {
      assert TrialInv(s.cfg, s.assignments, s.trials[m]);
    }
  }

  /** Who is stranded right now: an eligible waiting trial with fewer rivals than its class has slots. */
  lemma StrandedExactly(s: Study, j: nat)
    requires Inv(s) && j < |s.trials|
    ensures var paper := s.trials[j].card.paper;
      Stranded(s, j) <==>
      && Promising(s.trials[j]) && !Barrier(s.trials, paper)
      && |Rivals(Candidates(s.trials, paper), Entry(s.trials, j))|
        < FreeSlots(s.cfg, paper, CompletedCount(s.trials, paper), |Candidates(s.trials, paper)|)
  {
    ScreenedAlready(s, s.trials[j].card.paper);
    RefreshExactly(s.cfg, s.trials, j);
  }

  // The class without one trial

  /** The trials with trial i set aside, so that the ranking does not see it. */
  function SetAside(xs: seq<Trial>, i: nat): (r: seq<Trial>)
    requires i < |xs|
    ensures |r| == |xs|
  {
    xs[i := xs[i].(status := TrialStatus.Failed)]
  }

  /** ys is xs with trial i, which the ranking of xs does not see, as it may be. */
  ghost predicate SeenAgain(xs: seq<Trial>, ys: seq<Trial>, i: nat) {
    && i < |xs| == |ys| && !Measured(xs[i])
    && (forall m :: 0 <= m < |xs| && m != i ==> ys[m] == xs[m])
  }

  /** Bringing trial i back adds it to the completed ones, if it is one. */
  lemma {:induction false} CompletedSeenAgain(xs: seq<Trial>, ys: seq<Trial>, i: nat, paper: bool)
    requires SeenAgain(xs, ys, i)
    ensures CompletedCount(ys, paper) == CompletedCount(xs, paper) + if CountsAsCompleted(ys[i], paper) then 1 else 0
  {
    var n := |xs| - 1;
    if i < n {
      CompletedSeenAgain(xs[..n], ys[..n], i, paper);
    } else {
      assert xs[..n] == ys[..n];
    }
  }

  lemma CountedOut(t: Trial, paper: bool)
    ensures !Measured(t) ==> !Eligible(t, paper) && !CountsAsCompleted(t, paper)
  {
  }

  lemma {:induction false} CandidatesSeenAgain(xs: seq<Trial>, ys: seq<Trial>, i: nat, paper: bool)
    requires SeenAgain(xs, ys, i)
    ensures |Candidates(ys, paper)| == |Candidates(xs, paper)| + if Eligible(ys[i], paper) then 1 else 0
  {
    hide Eligible, Measured;
    CountedOut(xs[i], paper);
    var n := |xs| - 1;
    if i < n {
      CandidatesSeenAgain(xs[..n], ys[..n], i, paper);
    } else {
      assert xs[..n] == ys[..n];
    }
  }

  lemma CandidateExactly(xs: seq<Trial>, paper: bool, c: Keyed<nat>)
    ensures c in Candidates(xs, paper) <==> Names(xs, paper, c)
  {
    CandidatesAreEligible(xs, paper);
    if Names(xs, paper, c) {
      EligibleAreCandidates(xs, paper, c.item);
    }
  }

  lemma CandidateSeenAgain(xs: seq<Trial>, ys: seq<Trial>, i: nat, paper: bool, d: Keyed<nat>)
    requires SeenAgain(xs, ys, i)
    ensures d in Candidates(ys, paper) <==> d in Candidates(xs, paper) || IsEntry(ys, i, paper, d)
    ensures IsEntry(ys, i, paper, d) ==> d !in Candidates(xs, paper)
  {
    CandidateExactly(xs, paper, d);
    CandidateExactly(ys, paper, d);
  }

  /** d is the ranking entry of trial i. */
  predicate IsEntry(ys: seq<Trial>, i: nat, paper: bool, d: Keyed<nat>)
    requires i < |ys|
  {
    Eligible(ys[i], paper) && d == Entry(ys, i)
  }

  lemma RivalsSeenAgain(xs: seq<Trial>, ys: seq<Trial>, i: nat, paper: bool, c: Keyed<nat>)
    requires SeenAgain(xs, ys, i)
    ensures |Rivals(Candidates(ys, paper), c)| == |Rivals(Candidates(xs, paper), c)|
      + if Eligible(ys[i], paper) && Beats(Entry(ys, i), c) then 1 else 0
  {
    var before, after := Rivals(Candidates(xs, paper), c), Rivals(Candidates(ys, paper), c);
    forall d ensures d in after <==> d in before || (IsEntry(ys, i, paper, d) && Beats(d, c)) {
      CandidateSeenAgain(xs, ys, i, paper, d);
    }
    if Eligible(ys[i], paper) && Beats(Entry(ys, i), c) {
      CandidateSeenAgain(xs, ys, i, paper, Entry(ys, i));
      assert after == before + {Entry(ys, i)};
    } else {
      assert after == before;
    }
  }

  // What a report does to the standing of its trial

  /** The report delivers evidence that may be ranked. */
  predicate Delivers(o: Observation) {
    o.evidence.failure == "" && Usable(o.evidence)
  }

  /** The evidence passes the guards of its own rung above pilot_3. */
  predicate PassesRung(cfg: Config, t: Trial, o: Observation) {
    var rec := Recorded(t, o);
    match o.key.stage
    case Pilot3 => true
    case Pilot10 => GuardPilot10(cfg, o.evidence) == NoReason
    case FullSeed1 => GuardFullSeed1(o.evidence) == NoReason
    case FullConfirmation => !AllSeedsObserved(cfg, rec) || Confirms(SeedEvidence(cfg, rec))
  }

  lemma SettledStanding(cfg: Config, t: Trial, o: Observation)
    requires !Refreshes(o) && At(Recorded(t, o), P3).Some?
    requires Delivers(o) ==> At(Recorded(t, o), P3).value.complete && At(Recorded(t, o), P3).value.delta.Some?
    ensures var u := Settle(cfg, Recorded(t, o), o);
      && u.card == t.card && u.observations == Record(t.observations, o)
      && (Measured(u) <==> Delivers(o))
      && (Eligible(u, t.card.paper) <==> Delivers(o) && PassesRung(cfg, t, o))
  {
    hide Lookup, Record, Confirms, AllSeedsObserved;
  }

  /** Above pilot_3 the pilot_3 evidence is accepted and stays; at pilot_3 a report has its say. */
  lemma Pilot3AfterReport(s: Study, i: nat, o: Observation)
    requires Inv(s) && i < |s.trials| && MayReport(s, i, o)
    ensures var t := s.trials[i];
      && At(Recorded(t, o), P3).Some?
      && (!o.key.stage.Pilot3? ==> Passed(s.cfg, t, Pilot3) && At(Recorded(t, o), P3) == At(t, P3))
  {
    hide Inv, MayReport, Lookup, Record, Passed;
    ReportIsDue(s, i, o);
    RecordLookup(s.trials[i].observations, o, P3);
    PassedPilot3(s.cfg, s.trials[i]);
  }

  lemma PassedPilot3(cfg: Config, t: Trial)
    ensures Passed(cfg, t, Pilot3) ==> At(t, P3).Some?
  {
  }

  /** A report that does not refresh leaves its trial measured and eligible exactly as it delivers and passes. */
  lemma StandingAfter(s: Study, i: nat, o: Observation)
    requires Inv(s) && i < |s.trials| && MayReport(s, i, o) && !Refreshes(o)
    ensures var t, u := s.trials[i], Report(s, i, o).trials[i];
      && u.card == t.card && !Owes(u)
      && (Measured(u) <==> Delivers(o))
      && (Eligible(u, t.card.paper) <==> Delivers(o) && PassesRung(s.cfg, t, o))
      && (Delivers(o) ==> Passed(s.cfg, t, Pilot3) && Delta(u) == At(t, P3).value.delta.value)
  {
    Pilot3AfterReport(s, i, o);
    SettledStanding(s.cfg, s.trials[i], o);
  }

  // Reports that do not refresh

  /** Nobody else of the reporter's class owes pilot_3. */
  predicate NobodyElseOwes(xs: seq<Trial>, i: nat)
    requires i < |xs|
  {
    forall m :: 0 <= m < |xs| && m != i && xs[m].card.paper == xs[i].card.paper ==> !Owes(xs[m])
  }

  /** Trial i ranks ahead of trial j by its pilot_3 delta. */
  ghost predicate RanksAhead(xs: seq<Trial>, i: nat, j: nat)
    requires i < |xs| && j < |xs| && Measured(xs[j])
  {
    match At(xs[i], P3)
    case Some(e) => e.delta.Some? && Beats(Keyed(e.delta.value, i), Entry(xs, j))
    case None => false
  }

  /**
    Strandings, exactly.  After a permitted report that does not refresh, at any rung, a classmate j is
    left behind if and only if nobody else owes pilot_3, j is eligible and waiting, and among the other
    trials plus the reporter, counted as far as it delivered and passed, fewer rank ahead of j than the
    class has slots.  Everything is read off the study before the report and the report itself.
    */
  lemma StrandsExactly(s: Study, i: nat, o: Observation, j: nat)
    requires Inv(s) && i < |s.trials| && j < |s.trials| && i != j && s.trials[i].card.paper == s.trials[j].card.paper
    requires MayReport(s, i, o) && !Refreshes(o)
    ensures var paper, rest := s.trials[j].card.paper, SetAside(s.trials, i);
      var counted := if Delivers(o) then 1 else 0;
      var ranked := if Delivers(o) && PassesRung(s.cfg, s.trials[i], o) then 1 else 0;
      Stranded(Report(s, i, o), j) <==>
      && Promising(s.trials[j]) && NobodyElseOwes(s.trials, i)
      && |Rivals(Candidates(rest, paper), Entry(s.trials, j))| + (if RanksAhead(s.trials, i, j) then ranked else 0)
        < FreeSlots(s.cfg, paper, CompletedCount(rest, paper) + counted, |Candidates(rest, paper)| + ranked)
  {
    hide Report, Inv, Stranded, FreeSlots, Candidates, CompletedCount, Delivers, PassesRung;
    var r, paper, rest := Report(s, i, o), s.trials[j].card.paper, SetAside(s.trials, i);
    ReportKeepsInv(s, i, o);
    StrandedExactly(r, j);
    StandingAfter(s, i, o);
    OthersUnchanged(s, i, o);
    BarrierAfter(s, i, o);
    CompletedSeenAgain(rest, r.trials, i, paper);
    CandidatesSeenAgain(rest, r.trials, i, paper);
    if Promising(s.trials[j]) {
      RivalsSeenAgain(rest, r.trials, i, paper, Entry(s.trials, j));
    }
  }

  lemma OthersUnchanged(s: Study, i: nat, o: Observation)
    requires i < |s.trials| && !Refreshes(o)
    ensures var r := Report(s, i, o); r.cfg == s.cfg && r.trials == s.trials[i := r.trials[i]]
  {
  }

  lemma BarrierAfter(s: Study, i: nat, o: Observation)
    requires Inv(s) && i < |s.trials| && MayReport(s, i, o) && !Refreshes(o)
    ensures Barrier(Report(s, i, o).trials, s.trials[i].card.paper) <==> !NobodyElseOwes(s.trials, i)
  {
    var xs, ys, paper := s.trials, Report(s, i, o).trials, s.trials[i].card.paper;
    StandingAfter(s, i, o);
    assert ys == xs[i := ys[i]];
    if m :| 0 <= m < |ys| && ys[m].card.paper == paper && Owes(ys[m]) {
      assert m != i && Owes(xs[m]);
    }
    if !NobodyElseOwes(xs, i) {
      var m :| 0 <= m < |xs| && m != i && xs[m].card.paper == paper && Owes(xs[m]);
      assert Owes(ys[m]);
    }
  }

  // The two causes

  /** The class as it is, in terms of the class without trial i. */
  lemma ClassWithout(s: Study, i: nat, j: nat)
    requires i < |s.trials| && j < |s.trials| && s.trials[i].card.paper == s.trials[j].card.paper
    ensures var paper, rest := s.trials[j].card.paper, SetAside(s.trials, i);
      var ranked := if Eligible(s.trials[i], paper) then 1 else 0;
      && CompletedCount(s.trials, paper) == CompletedCount(rest, paper) + (if Measured(s.trials[i]) then 1 else 0)
      && |Candidates(s.trials, paper)| == |Candidates(rest, paper)| + ranked
      && (Promising(s.trials[j]) ==>
            |Rivals(Candidates(s.trials, paper), Entry(s.trials, j))|
            == |Rivals(Candidates(rest, paper), Entry(s.trials, j))|
              + (if RanksAhead(s.trials, i, j) then ranked else 0))
  {
    var paper, rest := s.trials[j].card.paper, SetAside(s.trials, i);
    CompletedSeenAgain(rest, s.trials, i, paper);
    CandidatesSeenAgain(rest, s.trials, i, paper);
    if Promising(s.trials[j]) {
      RivalsSeenAgain(rest, s.trials, i, paper, Entry(s.trials, j));
    }
  }

  /** Where a trial stands that answers an open allocation. */
  lemma AnsweringTrial(s: Study, i: nat, o: Observation)
    requires Inv(s) && i < |s.trials| && Answers(s, i, o)
    ensures var t := s.trials[i];
      if o.key.stage.Pilot3? then Owes(t) && !Measured(t)
      else Measured(t) && Eligible(t, t.card.paper) && !Owes(t)
  {
    var t := s.trials[i];
    assert TrialInv(s.cfg, s.assignments, t);
    OpenSlot(s.cfg, s.assignments, t, o.key);
  }

  /**
    The first cause: the last trial that owes pilot_3 fails it or delivers it incomplete.  Before the
    report the barrier kept the whole class waiting; after it exactly those are stranded that rank
    within the slots the class now has.
    */
  lemma LastOwerStrands(s: Study, i: nat, o: Observation, j: nat)
    requires Inv(s) && i < |s.trials| && j < |s.trials| && i != j && s.trials[i].card.paper == s.trials[j].card.paper
    requires Answers(s, i, o) && o.key.stage.Pilot3? && !Delivers(o)
    ensures !Stranded(s, j)
    ensures var paper := s.trials[j].card.paper;
      Stranded(Report(s, i, o), j) <==>
      && Promising(s.trials[j]) && NobodyElseOwes(s.trials, i)
      && |Rivals(Candidates(s.trials, paper), Entry(s.trials, j))|
        < FreeSlots(s.cfg, paper, CompletedCount(s.trials, paper), |Candidates(s.trials, paper)|)
  {
    hide Report, Inv, Stranded, FreeSlots, Candidates, CompletedCount;
    AnsweringTrial(s, i, o);
    StrandedExactly(s, j);
    StrandsExactly(s, i, o, j);
    ClassWithout(s, i, j);
  }

  /**
    The second cause: a promoted trial that answers a later rung fails, delivers incomplete evidence, or
    is eliminated there.  Its slot becomes free and nobody is told: exactly those are stranded that rank
    within the slots of the class once it is gone.
    */
  lemma FreedSlotStrands(s: Study, i: nat, o: Observation, j: nat)
    requires Inv(s) && i < |s.trials| && j < |s.trials| && i != j && s.trials[i].card.paper == s.trials[j].card.paper
    requires Answers(s, i, o) && !o.key.stage.Pilot3? && !(Delivers(o) && PassesRung(s.cfg, s.trials[i], o))
    ensures var paper := s.trials[j].card.paper;
      && CompletedCount(s.trials, paper) > 0 && |Candidates(s.trials, paper)| > 0
      && (Stranded(Report(s, i, o), j) <==>
          && Promising(s.trials[j]) && !Barrier(s.trials, paper)
          && |Rivals(Candidates(s.trials, paper), Entry(s.trials, j))| - (if RanksAhead(s.trials, i, j) then 1 else 0)
            < FreeSlots(s.cfg, paper, CompletedCount(s.trials, paper) - (if Delivers(o) then 0 else 1),
                        |Candidates(s.trials, paper)| - 1))
  {
    hide Report, Inv, Stranded, FreeSlots, Candidates, CompletedCount, PassesRung;
    AnsweringTrial(s, i, o);
    StrandsExactly(s, i, o, j);
    ClassWithout(s, i, j);
    OwesElsewhere(s.trials, i);
  }

  /** A trial that answers a later rung and passes it keeps its slot, so its report strands nobody. */
  lemma KeptSlotStrandsNobody(s: Study, i: nat, o: Observation, j: nat)
    requires Inv(s) && i < |s.trials| && j < |s.trials| && i != j && s.trials[i].card.paper == s.trials[j].card.paper
    requires Answers(s, i, o) && !o.key.stage.Pilot3? && Delivers(o) && PassesRung(s.cfg, s.trials[i], o)
    ensures Stranded(Report(s, i, o), j) <==> Stranded(s, j)
  {
    hide Report, Inv, Stranded, FreeSlots, Candidates, CompletedCount, PassesRung;
    AnsweringTrial(s, i, o);
    StrandedExactly(s, j);
    StrandsExactly(s, i, o, j);
    ClassWithout(s, i, j);
    OwesElsewhere(s.trials, i);
  }

  lemma OwesElsewhere(xs: seq<Trial>, i: nat)
    requires i < |xs| && !Owes(xs[i])
    ensures Barrier(xs, xs[i].card.paper) <==> !NobodyElseOwes(xs, i)
  {
    if m :| 0 <= m < |xs| && xs[m].card.paper == xs[i].card.paper && Owes(xs[m]) {
      assert m != i;
    }
  }
}
