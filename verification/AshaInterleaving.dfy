/**
  The order of good pilot_3 reports does not matter inside disciplined runs either, where every report
  needs an allocation of its own and so has requests and claims around it.  Trials are compared at rest:
  whether the next allocation of a trial is being worked on depends on who asked last.
  */
module AshaInterleaving {
  import opened Options
  import opened AshaTypes
  import opened Promotion
  import opened AshaSpec
  import opened AshaBookkeeping
  import opened AshaLadder
  import opened AshaSteps
  import opened AshaRuns
  import opened AshaConfluence

  /** The trial as it would stand if its allocation had not been claimed or put aside. */
  function Rest(t: Trial): Trial {
    if t.status.Running? && t.pending.Some? then
      t.(status := DeferredState(t.pending.value).0, deferredForPaper := false)
    else t.(deferredForPaper := false)
  }

  function RestAll(xs: seq<Trial>): (r: seq<Trial>)
    ensures |r| == |xs|
    ensures forall i :: 0 <= i < |xs| ==> r[i] == Rest(xs[i])
  {
    seq(|xs|, i requires 0 <= i < |xs| => Rest(xs[i]))
  }

  // Requests and claims

  /** A trial that is put aside was standing, or running, where it is put. */
  lemma DeferRests(s: Study, i: nat)
    requires Inv(s) && i < |s.trials|
    ensures Rest(DeferTrial(s.assignments, s.trials[i])) == Rest(s.trials[i])
  {
    hide Inv, Awaits;
    if LastOutstanding(s.assignments, s.trials[i].card.id).Some? {
      OutstandingStage(s, i);
    }
  }

  lemma AskRests(s: Study, confirm: bool)
    requires Inv(s)
    ensures RestAll(Next(s, confirm).0.trials) == RestAll(s.trials)
  {
    hide Inv, Rest, DeferTrial;
    assert Next(s, confirm).0.trials == Yielded(s, confirm).trials;
    forall i | 0 <= i < |s.trials| ensures Rest(Yielded(s, confirm).trials[i]) == Rest(s.trials[i]) {
      DeferRests(s, i);
    }
  }

  lemma ClaimRests(s: Study, e: Event)
    requires Inv(s) && e.Claim? && Enabled(s, e)
    ensures RestAll(Apply(s, e).trials) == RestAll(s.trials)
  {
    hide Climb, Awaits, Screen, Lookup, Rest;
    var r := MarkRunning(s, e.id, e.key, e.run, e.node);
    if r.Ok? {
      var i := Find(s.trials, e.id).value;
      assert TrialInv(s.cfg, s.assignments, s.trials[i]);
      OpenSlot(s.cfg, s.assignments, s.trials[i], e.key);
      assert r.value.trials == s.trials[i := r.value.trials[i]];
      RestWhileClaimed(s.trials[i], r.value.trials[i], e.key.stage);
    }
  }

  /** A claim starts a trial that is standing, or already running, at the claimed stage. */
  lemma RestWhileClaimed(t: Trial, r: Trial, st: Stage)
    requires ParkedAt(t, st) || RunsAt(t, st)
    requires r == t.(status := TrialStatus.Running, pending := Some(st))
    ensures Rest(r) == Rest(t)
  {
  }

  // Refreshing at rest

  /** A trial running pilot_3 has not been measured. */
  predicate RunsUnmeasured(t: Trial) {
    t.status.Running? && t.pending == Some(Pilot3) ==> !Measured(t)
  }

  lemma RestScreen(cfg: Config, t: Trial)
    ensures Screen(cfg, Rest(t)) == Rest(Screen(cfg, t))
    ensures RunsUnmeasured(t) ==> RunsUnmeasured(Screen(cfg, t))
  {
  }

  lemma RestView(t: Trial)
    requires RunsUnmeasured(t)
    ensures SameView(t, Rest(t))
    ensures Measured(t) ==> (Promotable(t) <==> Promotable(Rest(t)))
    ensures Promotable(t) ==> Promote(Rest(t)) == Rest(Promote(t))
  {
  }

  lemma RestRefreshClass(cfg: Config, xs: seq<Trial>, paper: bool)
    requires forall i :: 0 <= i < |xs| ==> RunsUnmeasured(xs[i])
    ensures RefreshClass(cfg, RestAll(xs), paper) == RestAll(RefreshClass(cfg, xs, paper))
    ensures forall i :: 0 <= i < |xs| ==> RunsUnmeasured(RefreshClass(cfg, xs, paper)[i])
  {
    hide Screen, Rest, Measured, Promotable, SameView, Winners;
    var sx, sr := ScreenClass(cfg, xs, paper), ScreenClass(cfg, RestAll(xs), paper);
    forall i | 0 <= i < |xs|
      ensures sr[i] == Rest(sx[i]) && RunsUnmeasured(sx[i])
      ensures sx[i].card.paper == sr[i].card.paper && SameView(sx[i], sr[i])
    {
      RestCard(xs[i]);
      RestScreen(cfg, xs[i]);
      RestCard(sx[i]);
      RestView(sx[i]);
    }
    SameViewSameWinners(cfg, sx, sr, paper);
    WinnersStayInClass(cfg, sx, paper);
    forall i | 0 <= i < |xs|
      ensures PromoteClass(cfg, sr, paper)[i] == Rest(PromoteClass(cfg, sx, paper)[i])
      ensures RunsUnmeasured(PromoteClass(cfg, sx, paper)[i])
    {
      assert Wins(cfg, sx, paper, i) == Wins(cfg, sr, paper, i);
      RestView(sx[i]);
    }
  }

  lemma RestCard(t: Trial)
    ensures Rest(t).card == t.card
  {
  }

  /** Refreshing and putting to rest can be exchanged. */
  lemma RestRefresh(cfg: Config, xs: seq<Trial>)
    requires forall i :: 0 <= i < |xs| ==> RunsUnmeasured(xs[i])
    ensures Refresh(cfg, RestAll(xs)) == RestAll(Refresh(cfg, xs))
  {
    RestRefreshClass(cfg, xs, true);
    RestRefreshClass(cfg, RefreshClass(cfg, xs, true), false);
  }

  lemma RunningIsUnmeasured(s: Study, i: nat)
    requires Inv(s) && i < |s.trials|
    ensures RunsUnmeasured(s.trials[i])
  {
    assert TrialInv(s.cfg, s.assignments, s.trials[i]);
  }

  // Deliveries

  lemma RestKeepsGood(xs: seq<Trial>, d: Delivery)
    ensures Good(RestAll(xs), d) <==> Good(xs, d)
  {
  }

  /** A good report does to the trials at rest what it does to the trials. */
  lemma ReportRests(s: Study, d: Delivery)
    requires Inv(s) && Good(s.trials, d)
    ensures RestAll(Report(s, d.i, d.Obs()).trials) == Refresh(s.cfg, File(RestAll(s.trials), d))
  {
    hide Refresh, Record, Measured, Owes;
    FiledTrial(s.cfg, s.trials[d.i], d);
    var xs := File(s.trials, d);
    forall i | 0 <= i < |xs| ensures RunsUnmeasured(xs[i]) {
      RunningIsUnmeasured(s, i);
    }
    RestRefresh(s.cfg, xs);
    assert RestAll(xs) == File(RestAll(s.trials), d);
  }

  /** Nobody else stops owing pilot_3 because of a report. */
  lemma OthersStillGood(cfg: Config, xs: seq<Trial>, d: Delivery, c: Delivery)
    requires Good(xs, d) && Good(xs, c) && c.i != d.i
    ensures Good(Refresh(cfg, File(xs, d)), c)
  {
    RefreshAt(cfg, File(xs, d), c.i);
  }

  /** The deliveries of a run, as a batch of pilot_3 reports. */
  function Deliveries(es: seq<Event>): seq<Delivery> {
    if es == [] then []
    else (if es[0].Deliver? then [Delivery(es[0].i, es[0].o.evidence)] else []) + Deliveries(es[1..])
  }

  /** Requests, claims and first pilot_3 reports only. */
  predicate Cohort(es: seq<Event>) {
    forall e <- es :: !e.Enroll? && (e.Deliver? ==> e.o.key == P3)
  }

  /** Filing a batch with a refresh after each report. */
  function FileEach(cfg: Config, xs: seq<Trial>, ds: seq<Delivery>): (r: seq<Trial>)
    requires forall a :: 0 <= a < |ds| ==> ds[a].i < |xs|
    ensures |r| == |xs|
    decreases |ds|
  {
    if ds == [] then xs else FileEach(cfg, Refresh(cfg, File(xs, ds[0])), ds[1..])
  }

  lemma BatchTail(cfg: Config, xs: seq<Trial>, ds: seq<Delivery>)
    requires GoodBatch(xs, ds) && ds != []
    ensures GoodBatch(Refresh(cfg, File(xs, ds[0])), ds[1..])
  {
    hide Refresh, Owes, Accepted;
    forall a | 0 <= a < |ds[1..]| ensures Good(Refresh(cfg, File(xs, ds[0])), ds[1..][a]) {
      assert Good(xs, ds[a + 1]) && Good(xs, ds[0]);
      OthersStillGood(cfg, xs, ds[0], ds[a + 1]);
    }
  }

  /** A run of requests, claims and good reports leaves, at rest, what its reports alone leave. */
  lemma {:induction false} RunRests(s: Study, es: seq<Event>)
    requires Inv(s) && Disciplined(s, es) && Cohort(es) && GoodBatch(RestAll(s.trials), Deliveries(es))
    ensures RestAll(Run(s, es).trials) == FileEach(s.cfg, RestAll(s.trials), Deliveries(es))
    decreases |es|
  {
    hide Apply, Enabled, GoodBatch, File, Refresh, RestAll, Good;
    if es != [] {
      var e, r, ds := es[0], Apply(s, es[0]), Deliveries(es);
      StepKeepsInv(s, e);
      assert e in es && Cohort(es[1..]);
      if e.Deliver? {
        var d := Delivery(e.i, e.o.evidence);
        assert ds[0] == d && ds[1..] == Deliveries(es[1..]);
        DeliveredRests(s, e, ds);
      } else {
        assert ds == Deliveries(es[1..]);
        QuietRests(s, e);
      }
      RunRests(r, es[1..]);
    }
  }

  lemma QuietRests(s: Study, e: Event)
    requires Inv(s) && Enabled(s, e) && (e.Ask? || e.Claim?)
    ensures RestAll(Apply(s, e).trials) == RestAll(s.trials)
  {
    if e.Ask? {
      AskRests(s, e.confirm);
    } else {
      ClaimRests(s, e);
    }
  }

  lemma DeliveredRests(s: Study, e: Event, ds: seq<Delivery>)
    requires Inv(s) && Enabled(s, e) && e.Deliver? && e.o.key == P3
    requires ds != [] && ds[0] == Delivery(e.i, e.o.evidence) && GoodBatch(RestAll(s.trials), ds)
    ensures File.requires(RestAll(s.trials), ds[0])
    ensures RestAll(Apply(s, e).trials) == Refresh(s.cfg, File(RestAll(s.trials), ds[0]))
    ensures GoodBatch(RestAll(Apply(s, e).trials), ds[1..])
  {
    hide Report, Refresh, File;
    assert Good(RestAll(s.trials), ds[0]);
    RestKeepsGood(s.trials, ds[0]);
    assert ds[0].Obs() == e.o;
    ReportRests(s, ds[0]);
    BatchTail(s.cfg, RestAll(s.trials), ds);
  }

  /** Filing a batch with a refresh after each report is filing all of it and refreshing once. */
  lemma {:induction false} FileEachOnce(cfg: Config, xs: seq<Trial>, ds: seq<Delivery>)
    requires GoodBatch(xs, ds) && ds != []
    ensures FileEach(cfg, xs, ds) == Refresh(cfg, FileAll(xs, ds))
    decreases |ds|
  {
    hide Good, Refresh, File;
    var s := Study(cfg, xs, []);
    DeliverAllFiles(s, ds);
    FileEachDelivers(s, ds);
  }

  lemma {:induction false} FileEachDelivers(s: Study, ds: seq<Delivery>)
    requires GoodBatch(s.trials, ds)
    ensures FileEach(s.cfg, s.trials, ds) == DeliverAll(s, ds).trials
    decreases |ds|
  {
    hide Refresh, Owes, Accepted;
    if ds != [] {
      var front, d := ds[..|ds| - 1], ds[|ds| - 1];
      FileEachDelivers(s, front);
      FileEachLast(s.cfg, s.trials, ds);
      DeliverAllConfig(s, front);
      assert Good(s.trials, d);
      LastReport(DeliverAll(s, front), d);
    }
  }

  lemma LastReport(s: Study, d: Delivery)
    requires d.i < |s.trials| && Accepted(d.e)
    ensures Report(s, d.i, d.Obs()).trials == Refresh(s.cfg, File(s.trials, d))
  {
    FiledTrial(s.cfg, s.trials[d.i], d);
  }

  lemma {:induction false} DeliverAllConfig(s: Study, ds: seq<Delivery>)
    requires forall a :: 0 <= a < |ds| ==> ds[a].i < |s.trials|
    ensures DeliverAll(s, ds).cfg == s.cfg
  {
    if ds != [] {
      DeliverAllConfig(s, ds[..|ds| - 1]);
    }
  }

  lemma {:induction false} FileEachLast(cfg: Config, xs: seq<Trial>, ds: seq<Delivery>)
    requires ds != [] && forall a :: 0 <= a < |ds| ==> ds[a].i < |xs|
    ensures FileEach(cfg, xs, ds) == Refresh(cfg, File(FileEach(cfg, xs, ds[..|ds| - 1]), ds[|ds| - 1]))
    decreases |ds|
  {
    hide Refresh;
    if |ds| > 1 {
      var ys := Refresh(cfg, File(xs, ds[0]));
      FileEachLast(cfg, ys, ds[1..]);
      assert ds[1..][..|ds| - 2] == ds[..|ds| - 1][1..];
    }
  }

  /**
    Confluence of disciplined runs: from any reachable study, two runs of requests, claims and reports
    that deliver the same good pilot_3 reports, in any two orders and with any requests and claims in
    between, end with the same trials at rest.
    */
  lemma AnyInterleavingSameTrials(s: Study, es: seq<Event>, fs: seq<Event>)
    requires Inv(s) && Disciplined(s, es) && Disciplined(s, fs) && Cohort(es) && Cohort(fs)
    requires GoodBatch(s.trials, Deliveries(es)) && GoodBatch(s.trials, Deliveries(fs))
    requires multiset(Deliveries(es)) == multiset(Deliveries(fs))
    ensures RestAll(Run(s, es).trials) == RestAll(Run(s, fs).trials)
  {
    hide Inv, Run, Disciplined, FileEach, FileAll, RestAll, Good;
    var xs, ds, cs := RestAll(s.trials), Deliveries(es), Deliveries(fs);
    RestBatch(s.trials, ds);
    RestBatch(s.trials, cs);
    RunRests(s, es);
    RunRests(s, fs);
    assert |multiset(ds)| == |ds| && |multiset(cs)| == |cs|;
    if ds == [] {
      assert cs == [];
    } else {
      FileEachOnce(s.cfg, xs, ds);
      FileEachOnce(s.cfg, xs, cs);
      FileAllAnyOrder(xs, ds, cs);
    }
  }

  lemma RestBatch(xs: seq<Trial>, ds: seq<Delivery>)
    requires GoodBatch(xs, ds)
    ensures GoodBatch(RestAll(xs), ds)
  {
    hide Good;
    forall a | 0 <= a < |ds| ensures Good(RestAll(xs), ds[a]) {
      RestKeepsGood(xs, ds[a]);
    }
  }
}
