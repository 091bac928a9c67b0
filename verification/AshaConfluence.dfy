/** The order in which good pilot_3 reports arrive does not matter. */
module AshaConfluence {
  import opened Options
  import opened AshaTypes
  import opened Promotion
  import opened AshaSpec
  import opened AshaBookkeeping
  import opened AshaLadder
  import opened AshaPromotion

  /** A pilot_3 report for the trial at position i. */
  datatype Delivery = Delivery(i: nat, e: Evidence)
  {
    function Obs(): Observation {
      Observation(P3, e)
    }
  }

  /** A complete, verified report without failure for a trial that owes it. */
  predicate Good(xs: seq<Trial>, d: Delivery) {
    d.i < |xs| && Owes(xs[d.i]) && Accepted(d.e)
  }

  ghost predicate GoodBatch(xs: seq<Trial>, ds: seq<Delivery>) {
    && (forall a :: 0 <= a < |ds| ==> Good(xs, ds[a]))
    && (forall a, b :: 0 <= a < b < |ds| ==> ds[a].i != ds[b].i)
  }

  /** Reporting a batch one delivery after the other. */
  function DeliverAll(s: Study, ds: seq<Delivery>): (r: Study)
    requires forall a :: 0 <= a < |ds| ==> ds[a].i < |s.trials|
    ensures |r.trials| == |s.trials|
  {
    if ds == [] then s
    else
      var d := ds[|ds| - 1];
      Report(DeliverAll(s, ds[..|ds| - 1]), d.i, d.Obs())
  }

  /** The trial with its pilot_3 evidence filed and nothing decided yet. */
  function Filed(t: Trial, d: Delivery): Trial {
    Recorded(t, d.Obs()).(status := Waiting, pending := None)
  }

  function File(xs: seq<Trial>, d: Delivery): seq<Trial>
    requires d.i < |xs|
  {
    xs[d.i := Filed(xs[d.i], d)]
  }

  function FileAll(xs: seq<Trial>, ds: seq<Delivery>): (r: seq<Trial>)
    requires forall a :: 0 <= a < |ds| ==> ds[a].i < |xs|
    ensures |r| == |xs|
  {
    if ds == [] then xs else File(FileAll(xs, ds[..|ds| - 1]), ds[|ds| - 1])
  }

  // Deciding early is deciding at the end

  lemma FiledKeepsOthers(xs: seq<Trial>, ys: seq<Trial>, d: Delivery, paper: bool)
    requires d.i < |xs| && AgreeOn(xs, ys, paper)
    ensures AgreeOn(File(xs, d), File(ys, d), paper)
  {
  }

  lemma BarredClass(cfg: Config, xs: seq<Trial>, paper: bool)
    requires Barrier(xs, paper)
    ensures AgreeOn(Refresh(cfg, xs), ScreenClass(cfg, xs, paper), paper)
  {
    forall j | 0 <= j < |xs|
      ensures Refresh(cfg, xs)[j].card.paper == xs[j].card.paper
      ensures xs[j].card.paper == paper ==> Refresh(cfg, xs)[j] == Screen(cfg, xs[j])
    {
      BarredAt(cfg, xs, paper, j);
    }
  }

  lemma BarredAt(cfg: Config, xs: seq<Trial>, paper: bool, j: nat)
    requires Barrier(xs, paper) && j < |xs|
    ensures Refresh(cfg, xs)[j].card.paper == xs[j].card.paper
    ensures xs[j].card.paper == paper ==> Refresh(cfg, xs)[j] == Screen(cfg, xs[j])
  {
    RefreshAt(cfg, xs, j);
    if xs[j].card.paper == paper {
      BarrierHolds(cfg, xs, j);
    }
  }

  /** Screening a class before filing a report in it is the same as screening it afterwards. */
  lemma ScreenThenFile(cfg: Config, xs: seq<Trial>, d: Delivery)
    requires Good(xs, d)
    ensures var paper := xs[d.i].card.paper;
      RefreshClass(cfg, File(ScreenClass(cfg, xs, paper), d), paper) == RefreshClass(cfg, File(xs, d), paper)
  {
    var paper := xs[d.i].card.paper;
    var a, b := File(ScreenClass(cfg, xs, paper), d), File(xs, d);
    forall j | 0 <= j < |xs| ensures ScreenClass(cfg, a, paper)[j] == ScreenClass(cfg, b, paper)[j] {
    }
    assert ScreenClass(cfg, a, paper) == ScreenClass(cfg, b, paper);
  }

  /** In its own class the early refresh changed nothing that the later one would not change. */
  lemma AbsorbInClass(cfg: Config, xs: seq<Trial>, d: Delivery)
    requires Good(xs, d)
    ensures var paper := xs[d.i].card.paper;
      AgreeOn(Refresh(cfg, File(Refresh(cfg, xs), d)), Refresh(cfg, File(xs, d)), paper)
  {
    var paper := xs[d.i].card.paper;
    var once, screened := Refresh(cfg, xs), ScreenClass(cfg, xs, paper);
    assert Barrier(xs, paper);
    BarredClass(cfg, xs, paper);
    FiledKeepsOthers(once, screened, d, paper);
    RefreshClassLocal(cfg, File(once, d), File(screened, d), paper);
    ScreenThenFile(cfg, xs, d);
    RefreshByClass(cfg, File(once, d), paper);
    RefreshByClass(cfg, File(xs, d), paper);
  }

  lemma FileElsewhere(xs: seq<Trial>, d: Delivery, other: bool)
    requires d.i < |xs| && xs[d.i].card.paper != other
    ensures AgreeOn(File(xs, d), xs, other)
  {
  }

  lemma AgreeTransitive(xs: seq<Trial>, ys: seq<Trial>, zs: seq<Trial>, paper: bool)
    requires AgreeOn(xs, ys, paper) && AgreeOn(ys, zs, paper)
    ensures AgreeOn(xs, zs, paper) && AgreeOn(zs, xs, paper)
  {
  }

  /** In the other class the early refresh is simply repeated. */
  lemma AbsorbElsewhere(cfg: Config, xs: seq<Trial>, d: Delivery)
    requires Good(xs, d)
    ensures var other := !xs[d.i].card.paper;
      AgreeOn(Refresh(cfg, File(Refresh(cfg, xs), d)), Refresh(cfg, File(xs, d)), other)
  {
    var other := !xs[d.i].card.paper;
    var once := Refresh(cfg, xs);
    RefreshAt(cfg, xs, d.i);
    FileElsewhere(once, d, other);
    FileElsewhere(xs, d, other);
    SameRefresh(cfg, File(once, d), once, other);
    RefreshIdempotent(cfg, xs);
    SameRefresh(cfg, File(xs, d), xs, other);
    AgreeTransitive(Refresh(cfg, File(xs, d)), once, once, other);
    AgreeTransitive(Refresh(cfg, File(once, d)), once, Refresh(cfg, File(xs, d)), other);
  }

  lemma SameRefresh(cfg: Config, xs: seq<Trial>, ys: seq<Trial>, paper: bool)
    requires AgreeOn(xs, ys, paper)
    ensures AgreeOn(Refresh(cfg, xs), Refresh(cfg, ys), paper)
  {
    RefreshByClass(cfg, xs, paper);
    RefreshByClass(cfg, ys, paper);
    RefreshClassLocal(cfg, xs, ys, paper);
  }

  /** A refresh before a report leaves no trace after it. */
  lemma Absorb(cfg: Config, xs: seq<Trial>, d: Delivery)
    requires Good(xs, d)
    ensures Refresh(cfg, File(Refresh(cfg, xs), d)) == Refresh(cfg, File(xs, d))
  {
    AbsorbInClass(cfg, xs, d);
    AbsorbElsewhere(cfg, xs, d);
    var paper := xs[d.i].card.paper;
    assert paper || !paper;
    AgreeOnBoth(Refresh(cfg, File(Refresh(cfg, xs), d)), Refresh(cfg, File(xs, d)));
  }

  lemma {:induction false} FileAllAt(xs: seq<Trial>, ds: seq<Delivery>, j: nat)
    requires GoodBatch(xs, ds) && j < |xs|
    ensures forall a :: 0 <= a < |ds| && ds[a].i == j ==> FileAll(xs, ds)[j] == Filed(xs[j], ds[a])
    ensures (forall a :: 0 <= a < |ds| ==> ds[a].i != j) ==> FileAll(xs, ds)[j] == xs[j]
  {
    if ds != [] {
      FileAllAt(xs, ds[..|ds| - 1], j);
    }
  }

  lemma FiledTrial(cfg: Config, t: Trial, d: Delivery)
    requires Accepted(d.e)
    ensures Settle(cfg, Recorded(t, d.Obs()), d.Obs()) == Filed(t, d) && Refreshes(d.Obs())
  {
  }

  /** Reporting a batch is filing all of it and refreshing once. */
  lemma {:induction false} DeliverAllFiles(s: Study, ds: seq<Delivery>)
    requires GoodBatch(s.trials, ds) && ds != []
    ensures DeliverAll(s, ds).trials == Refresh(s.cfg, FileAll(s.trials, ds))
    ensures DeliverAll(s, ds).cfg == s.cfg
  {
    var front, d := ds[..|ds| - 1], ds[|ds| - 1];
    var before := DeliverAll(s, front);
    if front == [] {
      FiledTrial(s.cfg, s.trials[d.i], d);
    } else {
      DeliverAllFiles(s, front);
      FiledTrial(s.cfg, before.trials[d.i], d);
      FileAllAt(s.trials, front, d.i);
      assert Good(s.trials, d);
      Absorb(s.cfg, FileAll(s.trials, front), d);
    }
  }

  // The assignments the batch closes

  function CloseAll(asgs: seq<Assignment>, xs: seq<Trial>, ds: seq<Delivery>): (r: seq<Assignment>)
    requires forall a :: 0 <= a < |ds| ==> ds[a].i < |xs|
    ensures |r| == |asgs|
  {
    if ds == [] then asgs
    else
      var d := ds[|ds| - 1];
      FinishAssignment(CloseAll(asgs, xs, ds[..|ds| - 1]), xs[d.i].card.id, d.Obs())
  }

  /** Delivery d closes the record at position m. */
  predicate Closes(asgs: seq<Assignment>, xs: seq<Trial>, d: Delivery, m: nat)
    requires d.i < |xs|
  {
    FindKey(asgs, xs[d.i].card.id, P3) == Some(m)
  }

  function Closed(a: Assignment, d: Delivery): Assignment {
    a.(status := if d.e.failure != "" then AssignmentStatus.Failed else AssignmentStatus.Completed,
       nodeId := OrElse(a.nodeId, Some(d.e.nodeId)))
  }

  lemma {:induction false} CloseAllKeys(asgs: seq<Assignment>, xs: seq<Trial>, ds: seq<Delivery>)
    requires forall a :: 0 <= a < |ds| ==> ds[a].i < |xs|
    ensures SameKeys(asgs, CloseAll(asgs, xs, ds))
  {
    if ds != [] {
      CloseAllKeys(asgs, xs, ds[..|ds| - 1]);
    }
  }

  lemma {:induction false} CloseAllAt(asgs: seq<Assignment>, xs: seq<Trial>, ds: seq<Delivery>, m: nat)
    requires UniqueIds(xs) && GoodBatch(xs, ds) && m < |asgs|
    ensures forall a :: 0 <= a < |ds| && Closes(asgs, xs, ds[a], m) ==>
      CloseAll(asgs, xs, ds)[m] == Closed(asgs[m], ds[a])
    ensures (forall a :: 0 <= a < |ds| ==> !Closes(asgs, xs, ds[a], m)) ==> CloseAll(asgs, xs, ds)[m] == asgs[m]
  {
    if ds != [] {
      var front, d := ds[..|ds| - 1], ds[|ds| - 1];
      CloseAllAt(asgs, xs, front, m);
      CloseAllKeys(asgs, xs, front);
      FindKeySame(asgs, CloseAll(asgs, xs, front), xs[d.i].card.id, P3);
      forall a | 0 <= a < |front| && Closes(asgs, xs, d, m) ensures !Closes(asgs, xs, front[a], m) {
        DifferentTrials(xs, ds[a].i, d.i);
      }
      assert forall a :: 0 <= a < |front| ==> front[a] == ds[a];
    }
  }

  lemma DifferentTrials(xs: seq<Trial>, i: nat, j: nat)
    requires UniqueIds(xs) && i < |xs| && j < |xs| && i != j
    ensures xs[i].card.id != xs[j].card.id
  {
    if i < j {
      assert xs[i].card.id != xs[j].card.id;
    } else {
      assert xs[j].card.id != xs[i].card.id;
    }
  }

  lemma ReportKeepsCard(s: Study, i: nat, o: Observation, j: nat)
    requires i < |s.trials| && j < |s.trials|
    ensures Report(s, i, o).trials[j].card == s.trials[j].card
  {
    SettleFits(s.cfg, Recorded(s.trials[i], o), o);
    RefreshAt(s.cfg, s.trials[i := Settle(s.cfg, Recorded(s.trials[i], o), o)], j);
  }

  lemma {:induction false} DeliverAllCloses(s: Study, ds: seq<Delivery>)
    requires GoodBatch(s.trials, ds)
    ensures DeliverAll(s, ds).assignments == CloseAll(s.assignments, s.trials, ds)
    ensures forall j :: 0 <= j < |s.trials| ==> DeliverAll(s, ds).trials[j].card == s.trials[j].card
  {
    if ds != [] {
      var front, d := ds[..|ds| - 1], ds[|ds| - 1];
      DeliverAllCloses(s, front);
      forall j | 0 <= j < |s.trials| ensures DeliverAll(s, ds).trials[j].card == s.trials[j].card {
        ReportKeepsCard(DeliverAll(s, front), d.i, d.Obs(), j);
      }
    }
  }

  // Any two orders

  lemma SameMembers(ds: seq<Delivery>, ds': seq<Delivery>, a: nat) returns (b: nat)
    requires multiset(ds) == multiset(ds') && a < |ds|
    ensures b < |ds'| && ds'[b] == ds[a]
  {
    assert ds[a] in multiset(ds');
    b :| 0 <= b < |ds'| && ds'[b] == ds[a];
  }

  lemma FileAllAnyOrder(xs: seq<Trial>, ds: seq<Delivery>, ds': seq<Delivery>)
    requires GoodBatch(xs, ds) && GoodBatch(xs, ds') && multiset(ds) == multiset(ds')
    ensures FileAll(xs, ds) == FileAll(xs, ds')
  {
    forall j | 0 <= j < |xs| ensures FileAll(xs, ds)[j] == FileAll(xs, ds')[j] {
      FileAllAt(xs, ds, j);
      FileAllAt(xs, ds', j);
      if a :| 0 <= a < |ds| && ds[a].i == j {
        var b := SameMembers(ds, ds', a);
      } else if b :| 0 <= b < |ds'| && ds'[b].i == j {
        var a := SameMembers(ds', ds, b);
      }
    }
  }

  lemma CloseAllAnyOrder(asgs: seq<Assignment>, xs: seq<Trial>, ds: seq<Delivery>, ds': seq<Delivery>)
    requires UniqueIds(xs) && GoodBatch(xs, ds) && GoodBatch(xs, ds') && multiset(ds) == multiset(ds')
    ensures CloseAll(asgs, xs, ds) == CloseAll(asgs, xs, ds')
  {
    forall m | 0 <= m < |asgs| ensures CloseAll(asgs, xs, ds)[m] == CloseAll(asgs, xs, ds')[m] {
      CloseAllAt(asgs, xs, ds, m);
      CloseAllAt(asgs, xs, ds', m);
      if a :| 0 <= a < |ds| && Closes(asgs, xs, ds[a], m) {
        var b := SameMembers(ds, ds', a);
      } else if b :| 0 <= b < |ds'| && Closes(asgs, xs, ds'[b], m) {
        var a := SameMembers(ds', ds, b);
      }
    }
  }

  /**
    Confluence: from any study with unique trial ids, delivering good pilot_3 reports of distinct
    trials in any two orders ends in the same study, trials and assignments alike.
    */
  lemma AnyOrderSameStudy(s: Study, ds: seq<Delivery>, ds': seq<Delivery>)
    requires UniqueIds(s.trials)
    requires GoodBatch(s.trials, ds) && GoodBatch(s.trials, ds') && multiset(ds) == multiset(ds')
    ensures DeliverAll(s, ds) == DeliverAll(s, ds')
  {
    assert |multiset(ds)| == |ds| && |multiset(ds')| == |ds'|;
    if ds != [] {
      DeliverAllFiles(s, ds);
      DeliverAllFiles(s, ds');
      FileAllAnyOrder(s.trials, ds, ds');
      DeliverAllCloses(s, ds);
      DeliverAllCloses(s, ds');
      CloseAllAnyOrder(s.assignments, s.trials, ds, ds');
    }
  }
}
