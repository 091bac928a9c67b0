/**
  The driver: ask for an assignment, claim it, train, report, and ask again until nothing is offered.
  The driving process may die after any of these calls; a new one then starts from what was persisted.
  */
module AshaDriver {
  import opened Options
  import opened Collections
  import opened AshaTypes
  import opened Promotion
  import opened AshaSpec
  import opened AshaBookkeeping
  import opened AshaLadder
  import opened AshaSteps
  import opened AshaRuns
  import opened AshaAllocation
  import opened AshaResume
  import opened AshaScheduler

  /** How far one pass of the driver gets. */
  datatype Fate = DiesAfterAsk | DiesAfterClaim | Reports

  /** The disciplined run es leads from s0 to s and trains these keys. */
  ghost predicate Drove(s0: Study, es: seq<Event>, s: Study, trained: seq<(string, Key)>) {
    && Disciplined(s0, es) && Run(s0, es) == s && Trainings(s0, es) == trained
    && |s.trials| == |s0.trials| && s.cfg == s0.cfg && Inv(s)
  }

  lemma Prolong(s0: Study, es: seq<Event>, s: Study, trained: seq<(string, Key)>, e: Event, r: Study)
    requires Drove(s0, es, s, trained) && !e.Enroll? && Enabled(s, e) && Apply(s, e) == r
    ensures Drove(s0, es + [e], r, trained + OwnTraining(s, e))
  {
    StepKeepsInv(s, e);
    StepKeepsLength(s, e);
    assert Trainings(r, []) == [];
    DisciplinedConcat(s0, es, [e]);
    RunConcat(s0, es, [e]);
    TrainingsConcat(s0, es, [e]);
  }

  method AskNext(scheduler: Scheduler, confirm: bool, names: Names,
                 ghost s0: Study, ghost es: seq<Event>, ghost trained: seq<(string, Key)>)
    returns (offer: Option<Assignment>)
    requires Drove(s0, es, scheduler.Study(), trained) && AllBound(scheduler.assignments, names)
    modifies scheduler
    ensures Drove(s0, es + [Ask(confirm)], scheduler.Study(), trained) && AllBound(scheduler.assignments, names)
    ensures scheduler.Study() == Next(old(scheduler.Study()), confirm).0
    ensures offer == Next(old(scheduler.Study()), confirm).1
    ensures offer.None? ==> Next(scheduler.Study(), confirm) == (scheduler.Study(), None)
    ensures offer.Some? ==>
      var st := Slot(scheduler.assignments, offer.value.trialId, offer.value.key); st.Some? && Outstanding(st.value)
  {
    ghost var s := scheduler.Study();
    offer := scheduler.NextAssignment(confirm);
    Prolong(s0, es, s, trained, Ask(confirm), scheduler.Study());
    NextKeepsBound(s, confirm, names);
    if offer.None? {
      NextIsStable(s, confirm);
    } else {
      NextOffersUntrained(s, confirm);
    }
  }

  /** Claim what was offered; a name the driver chose before is the one it chooses now. */
  method ClaimOffer(scheduler: Scheduler, a: Assignment, names: Names,
                    ghost s0: Study, ghost es: seq<Event>, ghost trained: seq<(string, Key)>)
    returns (ghost claim: Event)
    requires Drove(s0, es, scheduler.Study(), trained) && AllBound(scheduler.assignments, names)
    requires var st := Slot(scheduler.assignments, a.trialId, a.key); st.Some? && Outstanding(st.value)
    modifies scheduler
    ensures Drove(s0, es + [claim], scheduler.Study(), trained) && AllBound(scheduler.assignments, names)
    ensures Slot(scheduler.assignments, a.trialId, a.key) == Some(AssignmentStatus.Running)
    ensures scheduler.Study() == ClaimOf(old(scheduler.Study()), names, a)
  {
    ghost var s := scheduler.Study();
    var id, k := a.trialId, a.key;
    claim := Claim(id, k, Some(names.run(id, k)), Some(names.node(id, k)));
    ClaimSucceeds(s, id, k, names);
    var error := scheduler.MarkRunning(id, k, Some(names.run(id, k)), Some(names.node(id, k)));
    assert error.None?;
    Prolong(s0, es, s, trained, claim, scheduler.Study());
  }

  /** Report the evidence of a claimed allocation. */
  method ReportClaimed(scheduler: Scheduler, id: string, o: Observation, ghost names: Names,
                       ghost s0: Study, ghost es: seq<Event>, ghost trained: seq<(string, Key)>)
    returns (ghost e: Event)
    requires Drove(s0, es, scheduler.Study(), trained) && AllBound(scheduler.assignments, names)
    requires Slot(scheduler.assignments, id, o.key) == Some(AssignmentStatus.Running)
    modifies scheduler
    ensures Drove(s0, es + [e], scheduler.Study(), trained + [(id, o.key)]) && AllBound(scheduler.assignments, names)
    ensures var i := Find(old(scheduler.trials), id);
      i.Some? && scheduler.Study() == Report(old(scheduler.Study()), i.value, o)
  {
    ghost var s := scheduler.Study();
    assert KnownAssignment(s.trials, s.assignments[FindKey(s.assignments, id, o.key).value]);
    ghost var i := Find(s.trials, id).value;
    e := Deliver(i, o);
    ReportKeepsBound(s, i, o, names);
    var known := scheduler.Report(id, o);
    assert known;
    Prolong(s0, es, s, trained, e, scheduler.Study());
  }

  /** A pass in its parts, and what is left of it when the process dies in between. */
  lemma PassInParts(s: Study, d: Driver)
    requires Inv(s) && AllBound(s.assignments, d.names)
    ensures var r, a := Next(s, d.confirm).0, Next(s, d.confirm).1;
      && (a.None? ==> OnePass(s, d) == (r, []))
      && OnePass(r, d) == OnePass(s, d)
      && (a.Some? ==>
            var c, id, k := ClaimOf(r, d.names, a.value), a.value.trialId, a.value.key;
            && OnePass(c, d) == OnePass(s, d)
            && (Find(c.trials, id).Some? ==>
                  OnePass(s, d) == (Report(c, Find(c.trials, id).value, Observation(k, d.train(id, k))), [(id, k)])))
  {
    hide Inv, Next, ClaimOf, Report, AllBound;
    InvIsValid(s);
    AskingLeavesNoTrace(s, d);
    if Next(s, d.confirm).1.Some? {
      ClaimingLeavesNoTrace(s, d);
    }
  }

  lemma DroveIsValid(s0: Study, es: seq<Event>, s: Study, trained: seq<(string, Key)>)
    requires Drove(s0, es, s, trained)
    ensures Inv(s)
  {
  }

  /** One pass: ask, claim, train, report, unless the process dies on the way. */
  method Pass(scheduler: Scheduler, d: Driver, fate: Fate,
              ghost s0: Study, ghost es0: seq<Event>, trained0: seq<(string, Key)>)
    returns (idle: bool, trained: seq<(string, Key)>, ghost es: seq<Event>)
    requires Drove(s0, es0, scheduler.Study(), trained0) && AllBound(scheduler.assignments, d.names)
    modifies scheduler
    ensures Drove(s0, es, scheduler.Study(), trained) && AllBound(scheduler.assignments, d.names)
    ensures idle ==> Next(scheduler.Study(), d.confirm) == (scheduler.Study(), None)
    ensures idle || fate.Reports? ==>
      var one := OnePass(old(scheduler.Study()), d); (scheduler.Study(), trained) == (one.0, trained0 + one.1)
    ensures !idle && fate.Reports? ==> |trained| == |trained0| + 1
    ensures !idle && !fate.Reports? ==>
      trained == trained0 && OnePass(scheduler.Study(), d) == OnePass(old(scheduler.Study()), d)
  {
    hide Drove, AllBound, OnePass, Next, Report, ClaimOf, Slot, Find, Valid;
    ghost var s := scheduler.Study();
    DroveIsValid(s0, es0, s, trained0);
    PassInParts(s, d);
    var offer := AskNext(scheduler, d.confirm, d.names, s0, es0, trained0);
    idle, trained, es := offer.None?, trained0, es0 + [Ask(d.confirm)];
    if idle || fate.DiesAfterAsk? {
      assert trained0 + [] == trained0;
      return;
    }
    var id, k := offer.value.trialId, offer.value.key;
    ghost var claim := ClaimOffer(scheduler, offer.value, d.names, s0, es, trained);
    es := es + [claim];
    if fate.DiesAfterClaim? {
      return;
    }
    ghost var report := ReportClaimed(scheduler, id, Observation(k, d.train(id, k)), d.names, s0, es, trained);
    trained, es := trained + [(id, k)], es + [report];
  }

  lemma {:induction false} DroveCount(s0: Study, es: seq<Event>, s: Study, trained: seq<(string, Key)>)
    requires Inv(s0) && Drove(s0, es, s, trained)
    ensures TotalEvidence(s.trials) == TotalEvidence(s0.trials) + |trained|
  {
    TrainingsCount(s0, es);
  }

  /** A run between two states of the same trials trains at most what their ladders hold. */
  lemma {:induction false} DroveFits(s0: Study, es: seq<Event>, s: Study, trained: seq<(string, Key)>)
    requires Inv(s0) && Drove(s0, es, s, trained)
    ensures |trained| <= Capacity(s) == Capacity(s0)
  {
    EvidenceFits(s);
    DroveCount(s0, es, s, trained);
    SameCapacity(s0, s);
  }

  lemma SameCapacity(s: Study, r: Study)
    requires |r.trials| == |s.trials| && r.cfg == s.cfg
    ensures Capacity(r) == Capacity(s)
  {
  }

  predicate Distinct(trained: seq<(string, Key)>) {
    forall x, y :: 0 <= x < y < |trained| ==> trained[x] != trained[y]
  }

  lemma {:induction false} DroveFresh(s0: Study, es: seq<Event>, s: Study, trained: seq<(string, Key)>)
    requires Inv(s0) && Drove(s0, es, s, trained)
    ensures Distinct(trained)
  {
    TrainingsAreFresh(s0, es);
  }

  lemma IdleIsSettled(s: Study)
    requires Inv(s) && Next(s, true).1.None?
    ensures ScopeSettled(s.trials)
  {
    QuiescentExactly(s);
  }

  /** Every trial that may be offered work is settled. */
  ghost predicate ScopeSettled(trials: seq<Trial>) {
    forall i :: 0 <= i < |trials| && (PaperPending(trials, true) ==> trials[i].card.paper) ==> Settled(trials[i])
  }

  /** What is left to do from s leads to the same end as everything there was to do from s0. */
  ghost predicate OnCourse(s0: Study, d: Driver, s: Study, trained: seq<(string, Key)>, left: nat) {
    Passes(s0, d, Capacity(s0) + 1) == (Passes(s, d, left).0, trained + Passes(s, d, left).1)
  }

  lemma OnePassOnCourse(s0: Study, d: Driver, s: Study, trained: seq<(string, Key)>, left: nat)
    requires left > 0 && OnCourse(s0, d, s, trained, left)
    ensures OnCourse(s0, d, OnePass(s, d).0, trained + OnePass(s, d).1, left - 1)
  {
    hide OnePass;
    var one := OnePass(s, d);
    AppendAssociates(trained, one.1, Passes(one.0, d, left - 1).1);
  }

  /** Before the first pass, with the capacity of the study. */
  lemma StartsUnderway(s0: Study, d: Driver) returns (capacity: nat, left: nat)
    requires Inv(s0) && AllBound(s0.assignments, d.names)
    ensures capacity == Capacity(s0) && left == capacity + 1 && Underway(s0, d, [], s0, [], left)
  {
    hide Inv, Passes, AllBound;
    capacity, left := Capacity(s0), Capacity(s0) + 1;
    assert [] + Passes(s0, d, left).1 == Passes(s0, d, left).1;
  }

  lemma EndsOnCourse(s0: Study, d: Driver, s: Study, trained: seq<(string, Key)>, left: nat)
    requires OnCourse(s0, d, s, trained, left) && Next(s, d.confirm) == (s, None)
    ensures Passes(s0, d, Capacity(s0) + 1) == (s, trained)
  {
    hide Passes, Next, Capacity;
    IdlePasses(s, d, left);
    assert trained + [] == trained;
  }

  lemma SamePassOnCourse(s0: Study, d: Driver, s: Study, trained: seq<(string, Key)>, left: nat, r: Study)
    requires left > 0 && OnCourse(s0, d, s, trained, left) && OnePass(r, d) == OnePass(s, d)
    ensures OnCourse(s0, d, r, trained, left)
  {
    hide OnePass;
  }

  /** What holds between two passes: the run so far, and how many passes are left at most. */
  ghost predicate Underway(s0: Study, d: Driver, es: seq<Event>, s: Study, trained: seq<(string, Key)>, left: nat) {
    Drove(s0, es, s, trained) && AllBound(s.assignments, d.names) && OnCourse(s0, d, s, trained, left)
  }

  /** A pass that keeps count of the passes left. */
  method Advance(scheduler: Scheduler, d: Driver, fate: Fate,
                 ghost s0: Study, ghost es0: seq<Event>, trained0: seq<(string, Key)>, ghost left0: nat)
    returns (idle: bool, trained: seq<(string, Key)>, ghost es: seq<Event>, ghost left: nat)
    requires Inv(s0) && Underway(s0, d, es0, scheduler.Study(), trained0, left0)
    requires left0 + |trained0| == Capacity(s0) + 1
    modifies scheduler
    ensures Underway(s0, d, es, scheduler.Study(), trained, left)
    ensures idle ==> Next(scheduler.Study(), d.confirm) == (scheduler.Study(), None)
    ensures !idle ==> left + |trained| == Capacity(s0) + 1 && |trained| <= Capacity(s0)
    ensures !idle ==> if fate.Reports? then |trained| == |trained0| + 1 else trained == trained0
  {
    hide Drove, AllBound, OnCourse, OnePass, Next, Inv;
    ghost var s := scheduler.Study();
    DroveFits(s0, es0, s, trained0);
    idle, trained, es := Pass(scheduler, d, fate, s0, es0, trained0);
    DroveFits(s0, es, scheduler.Study(), trained);
    if idle || fate.Reports? {
      OnePassOnCourse(s0, d, s, trained0, left0);
      left := left0 - 1;
    } else {
      SamePassOnCourse(s0, d, s, trained0, left0, scheduler.Study());
      left := left0;
    }
  }

  /** What a finished drive has done. */
  lemma DriveEnds(s0: Study, d: Driver, es: seq<Event>, s: Study, trained: seq<(string, Key)>, left: nat)
    requires Inv(s0) && Underway(s0, d, es, s, trained, left) && Next(s, d.confirm) == (s, None)
    ensures Drove(s0, es, s, trained) && Distinct(trained) && |trained| <= Capacity(s)
    ensures (s, trained) == Passes(s0, d, Capacity(s0) + 1)
    ensures d.confirm ==> ScopeSettled(s.trials)
  {
    hide Drove, AllBound, OnCourse, Passes, Next, Inv, Distinct, ScopeSettled;
    EndsOnCourse(s0, d, s, trained, left);
    DroveFits(s0, es, s, trained);
    DroveFresh(s0, es, s, trained);
    if d.confirm {
      DroveIsValid(s0, es, s, trained);
      IdleIsSettled(s);
    }
  }

  /**
    Drive the study until nothing is offered, with any finite number of deaths on the way.  It ends;
    what it did is a disciplined run that trained no key twice and at most T * (S + 2) in all; the study
    and the training sequence are those of a driver that never dies, wherever this one did; and then
    nothing is left to hand out, which with full runs authorized means that every trial in scope is
    settled.
    */
  method Drive(scheduler: Scheduler, d: Driver, fates: seq<Fate>)
    returns (trained: seq<(string, Key)>, ghost es: seq<Event>)
    requires Inv(scheduler.Study()) && AllBound(scheduler.assignments, d.names)
    modifies scheduler
    ensures Drove(old(scheduler.Study()), es, scheduler.Study(), trained)
    ensures Distinct(trained) && |trained| <= Capacity(scheduler.Study())
    ensures (scheduler.Study(), trained) == Passes(old(scheduler.Study()), d, Capacity(old(scheduler.Study())) + 1)
    ensures Next(scheduler.Study(), d.confirm).1.None?
    ensures d.confirm ==> ScopeSettled(scheduler.trials)
  {
    hide Underway, Passes, Next, Inv, ScopeSettled, Distinct, AllBound, Drove, Capacity;
    ghost var s0 := scheduler.Study();
    var n, idle := 0, false;
    trained, es := [], [];
    ghost var capacity: nat, left: nat := StartsUnderway(s0, d);
    while !idle
      invariant 0 <= n <= |fates|
      invariant Underway(s0, d, es, scheduler.Study(), trained, left)
      invariant !idle ==> left + |trained| == capacity + 1
      invariant idle ==> Next(scheduler.Study(), d.confirm) == (scheduler.Study(), None)
      decreases !idle, capacity - |trained|, |fates| - n
    {
      var fate := Reports;
      if n < |fates| {
        fate, n := fates[n], n + 1;
      }
      idle, trained, es, left := Advance(scheduler, d, fate, s0, es, trained, left);
    }
    DriveEnds(s0, d, es, scheduler.Study(), trained, left);
  }
}
