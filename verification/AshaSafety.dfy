/** Ladder safety and confirmation soundness, in terms of the evidence itself. */
module AshaSafety {
  import opened Options
  import opened Collections
  import opened AshaTypes
  import opened Promotion
  import opened AshaSpec
  import opened AshaBookkeeping
  import opened AshaLadder
  import opened AshaSteps
  import opened AshaRuns
  import Confidence

  /** Evidence that was imported whole, with a delta and both verifications. */
  predicate Whole(e: Evidence) {
    e.failure == "" && e.complete && e.delta.Some? && e.verified && e.pairedVerified
  }

  /** Pilot_3 evidence at or above the trial's noise floor and not rejected by the gate. */
  predicate SoundPilot3(cfg: Config, card: Card, e: Evidence) {
    && Whole(e)
    && (cfg.pilot3.noiseFloor.Some? ==> e.delta.value >= NoiseFloor(cfg.pilot3.noiseFloor.value, card))
    && (cfg.pilot3.requirePositive ==> e.delta.value > 0.0)
    && e.gate != Some(false)
  }

  predicate SoundPilot10(cfg: Config, e: Evidence) {
    && Whole(e)
    && (cfg.pilot10.requirePositive ==> e.delta.value > 0.0)
    && e.gate == Some(true)
    && (cfg.pilot10.requireTargetImprovement ==> e.improvedCount >= 1)
  }

  predicate SoundFull(e: Evidence) {
    Whole(e) && e.delta.value > 0.0 && e.gate == Some(true)
  }

  /** The evidence below a rung that justifies training it. */
  predicate Earned(cfg: Config, t: Trial, st: Stage) {
    && (Rung(st) > 0 ==> At(t, P3).Some? && SoundPilot3(cfg, t.card, At(t, P3).value))
    && (Rung(st) > 1 ==> At(t, P10).Some? && SoundPilot10(cfg, At(t, P10).value))
    && (Rung(st) > 2 ==> At(t, FULL1).Some? && SoundFull(At(t, FULL1).value))
  }

  lemma BeforeIsEarned(cfg: Config, t: Trial, st: Stage)
    requires Before(cfg, t, st)
    ensures Earned(cfg, t, st)
  {
  }

  /**
    Ladder safety: in every disciplined run, every allocation that was ever created, whatever its
    status now, belongs to a trial whose lower rungs hold the evidence that rung requires.
    */
  lemma LadderSafety(cfg: Config, es: seq<Event>, j: nat)
    requires Disciplined(EmptyStudy(cfg), es)
    requires j < |Run(EmptyStudy(cfg), es).assignments|
    ensures var s := Run(EmptyStudy(cfg), es);
      var a := s.assignments[j];
      && Legal(cfg, a.key)
      && Find(s.trials, a.trialId).Some?
      && Earned(cfg, s.trials[Find(s.trials, a.trialId).value], a.key.stage)
  {
    var s := Run(EmptyStudy(cfg), es);
    ReachableInv(cfg, es);
    var a := s.assignments[j];
    assert KnownAssignment(s.trials, a);
    var t := s.trials[Find(s.trials, a.trialId).value];
    assert TrialInv(cfg, s.assignments, t);
    SlotOf(s.assignments, j);
    assert KeyOk(cfg, s.assignments, t, a.key);
    BeforeIsEarned(cfg, t, a.key.stage);
  }

  /** A trial that still climbs has earned the rung it stands at. */
  lemma StandingIsEarned(cfg: Config, es: seq<Event>, i: nat)
    requires Disciplined(EmptyStudy(cfg), es)
    requires i < |Run(EmptyStudy(cfg), es).trials|
    ensures var t := Run(EmptyStudy(cfg), es).trials[i];
      && (t.pending.Some? ==> Earned(cfg, t, t.pending.value))
      && (t.status.Waiting? && t.pending == None ==> Earned(cfg, t, Pilot10))
  {
    var s := Run(EmptyStudy(cfg), es);
    ReachableInv(cfg, es);
    var t := s.trials[i];
    assert TrialInv(cfg, s.assignments, t) && TrialOk(s.assignments, t);
    if t.pending.Some? {
      BeforeIsEarned(cfg, t, t.pending.value);
    }
  }

  lemma {:induction false} DeltasOfPositive(es: seq<Evidence>)
    requires AllPositive(es)
    ensures |Deltas(es)| == |es|
    ensures forall j :: 0 <= j < |es| ==> Deltas(es)[j] == es[j].delta.value > 0.0
  {
    if es != [] {
      assert forall j :: 0 <= j < |es[1..]| ==> es[1..][j] == es[j + 1];
      DeltasOfPositive(es[1..]);
    }
  }

  /**
    Confirmation soundness: a confirmed trial earned every rung, has an observation for every
    configured seed, each with a positive delta and a passed gate, and the lower end of the interval
    over exactly those deltas is positive.
    */
  lemma ConfirmedIsSound(cfg: Config, es: seq<Event>, i: nat)
    requires Disciplined(EmptyStudy(cfg), es)
    requires i < |Run(EmptyStudy(cfg), es).trials|
    requires Run(EmptyStudy(cfg), es).trials[i].status.Confirmed?
    ensures var t := Run(EmptyStudy(cfg), es).trials[i];
      && Earned(cfg, t, FullConfirmation)
      && AllSeedsObserved(cfg, t)
      && (forall j :: 0 <= j < |cfg.seeds| ==> Positive(At(t, SeedKey(j)).value))
      && Confidence.LowerBoundPositive(seq(|cfg.seeds|, j requires 0 <= j < |cfg.seeds| => Measure(t, j)))
  {
    var s := Run(EmptyStudy(cfg), es);
    ReachableInv(cfg, es);
    var t := s.trials[i];
    assert TrialInv(cfg, s.assignments, t);
    BeforeIsEarned(cfg, t, FullConfirmation);
    var ev := SeedEvidence(cfg, t);
    assert Confirms(ev);
    DeltasOfPositive(ev);
    forall j | 0 <= j < |cfg.seeds| ensures Positive(At(t, SeedKey(j)).value) && Measure(t, j) == Deltas(ev)[j] {
      assert Positive(ev[j]);
    }
    assert Deltas(ev) == seq(|cfg.seeds|, j requires 0 <= j < |cfg.seeds| => Measure(t, j));
  }

  /** The delta measured for the j-th configured seed. */
  function Measure(t: Trial, j: nat): real {
    match At(t, SeedKey(j))
    case None => 0.0
    case Some(e) => if e.delta.Some? then e.delta.value else 0.0
  }

  // The confirmation verdict as a function of the seeds' evidence

  function OwnDelta(e: Evidence): seq<real> {
    if e.delta.Some? then [e.delta.value] else []
  }

  lemma DeltasCons(xs: seq<Evidence>)
    requires xs != []
    ensures Deltas(xs) == OwnDelta(xs[0]) + Deltas(xs[1..])
  {
  }

  lemma {:induction false} DeltasAppend(xs: seq<Evidence>, ys: seq<Evidence>)
    ensures Deltas(xs + ys) == Deltas(xs) + Deltas(ys)
  {
    if xs == [] {
      assert xs + ys == ys && Deltas(xs) == [];
    } else {
      hide Deltas, OwnDelta;
      var all := xs + ys;
      assert all[0] == xs[0] && all[1..] == xs[1..] + ys;
      DeltasAppend(xs[1..], ys);
      DeltasCons(all);
      DeltasCons(xs);
      AppendAssociates(OwnDelta(xs[0]), Deltas(xs[1..]), Deltas(ys));
    }
  }

  lemma {:induction false} DeltasPermuted(xs: seq<Evidence>, ys: seq<Evidence>)
    requires multiset(xs) == multiset(ys)
    ensures multiset(Deltas(xs)) == multiset(Deltas(ys))
  {
    assert |multiset(xs)| == |xs| && |multiset(ys)| == |ys|;
    if xs != [] {
      var i := Confidence.RemoveOccurrence(xs, ys);
      DeltasPermuted(xs[1..], ys[..i] + ys[i + 1..]);
      DeltasSplit(xs, 0);
      assert xs[..0] + xs[1..] == xs[1..];
      DeltasSplit(ys, i);
    }
  }

  lemma {:induction false} DeltasSplit(ys: seq<Evidence>, i: nat)
    requires i < |ys|
    ensures multiset(Deltas(ys)) == multiset(Deltas([ys[i]])) + multiset(Deltas(ys[..i] + ys[i + 1..]))
  {
    var a, x, b := ys[..i], [ys[i]], ys[i + 1..];
    assert ys == a + (x + b);
    DeltasAppend(a, x + b);
    DeltasAppend(x, b);
    DeltasAppend(a, b);
    SplitOut(Deltas(ys), Deltas(a), Deltas(x), Deltas(b), Deltas(x + b), Deltas(a + b));
  }

  lemma SplitOut(all: seq<real>, a: seq<real>, x: seq<real>, b: seq<real>, xb: seq<real>, ab: seq<real>)
    requires all == a + xb && xb == x + b && ab == a + b
    ensures multiset(all) == multiset(x) + multiset(ab)
  {
    MiddleOut(a, x, b);
  }

  lemma MiddleOut(a: seq<real>, x: seq<real>, b: seq<real>)
    ensures multiset(a + (x + b)) == multiset(x) + multiset(a + b)
  {
  }

  /** The seeds may be listed in any order. */
  lemma ConfirmIgnoresSeedOrder(xs: seq<Evidence>, ys: seq<Evidence>)
    requires multiset(xs) == multiset(ys)
    ensures Confirms(xs) <==> Confirms(ys)
  {
    DeltasPermuted(xs, ys);
    Confidence.VerdictIgnoresSeedOrder(Deltas(xs), Deltas(ys));
    if AllPositive(xs) {
      SamePositives(xs, ys);
    }
    if AllPositive(ys) {
      SamePositives(ys, xs);
    }
  }

  lemma SamePositives(xs: seq<Evidence>, ys: seq<Evidence>)
    requires multiset(xs) == multiset(ys) && AllPositive(xs)
    ensures AllPositive(ys)
  {
    forall j | 0 <= j < |ys| ensures Positive(ys[j]) {
      assert ys[j] in multiset(ys);
      assert ys[j] in xs;
    }
  }

  /** The same seed with its measured delta x, if any, replaced by c * x + d. */
  predicate RemeasuredSeed(x: Evidence, y: Evidence, c: real, d: real) {
    && y.gate == x.gate
    && y.delta == match x.delta case None => None case Some(v) => Some(c * v + d)
  }

  /** The same seeds with every measured delta x replaced by c * x + d. */
  ghost predicate Remeasured(xs: seq<Evidence>, ys: seq<Evidence>, c: real, d: real) {
    |xs| == |ys| && forall j :: 0 <= j < |xs| ==> RemeasuredSeed(xs[j], ys[j], c, d)
  }

  lemma RemeasuredAt(xs: seq<Evidence>, ys: seq<Evidence>, c: real, d: real, j: nat, x: real, y: real)
    requires Remeasured(xs, ys, c, d) && j < |xs|
    requires xs[j].delta == Some(x) && ys[j].delta == Some(y)
    ensures y == c * x + d
  {
  }

  lemma {:induction false} RemeasuredDeltas(xs: seq<Evidence>, ys: seq<Evidence>, c: real, d: real)
    requires Remeasured(xs, ys, c, d) && AllPositive(xs) && AllPositive(ys)
    ensures Confidence.Affine(c, d, Deltas(xs), Deltas(ys))
  {
    if xs != [] {
      RemeasuredTail(xs, ys, c, d);
      RemeasuredDeltas(xs[1..], ys[1..], c, d);
      assert Positive(xs[0]) && Positive(ys[0]);
      var x, y := xs[0].delta.value, ys[0].delta.value;
      RemeasuredAt(xs, ys, c, d, 0, x, y);
      Confidence.AffineCons(c, d, x, y, Deltas(xs[1..]), Deltas(ys[1..]));
    }
  }

  lemma RemeasuredTail(xs: seq<Evidence>, ys: seq<Evidence>, c: real, d: real)
    requires Remeasured(xs, ys, c, d) && AllPositive(xs) && AllPositive(ys) && xs != []
    ensures Remeasured(xs[1..], ys[1..], c, d) && AllPositive(xs[1..]) && AllPositive(ys[1..])
  {
    forall j | 0 <= j < |xs| - 1 ensures RemeasuredSeed(xs[1..][j], ys[1..][j], c, d) {
      assert RemeasuredSeed(xs[j + 1], ys[j + 1], c, d);
    }
  }

  /** Measuring all deltas in another unit does not change the confirmation verdict. */
  lemma ConfirmIgnoresScale(xs: seq<Evidence>, ys: seq<Evidence>, c: real)
    requires c > 0.0 && Remeasured(xs, ys, c, 0.0)
    ensures Confirms(xs) <==> Confirms(ys)
  {
    forall j | 0 <= j < |xs| ensures Positive(xs[j]) == Positive(ys[j]) {
      if xs[j].delta.Some? {
        Confidence.SignOfProduct(c, xs[j].delta.value);
      }
    }
    assert AllPositive(xs) == AllPositive(ys);
    if AllPositive(xs) {
      RemeasuredDeltas(xs, ys, c, 0.0);
      Confidence.VerdictIgnoresScale(Deltas(xs), Deltas(ys), c);
    }
  }

  /** Raising all deltas alike never undoes a confirmation. */
  lemma ConfirmKeptByGain(xs: seq<Evidence>, ys: seq<Evidence>, d: real)
    requires d >= 0.0 && Remeasured(xs, ys, 1.0, d) && Confirms(xs)
    ensures Confirms(ys)
  {
    forall j | 0 <= j < |ys| ensures Positive(ys[j]) {
      assert Positive(xs[j]);
    }
    RemeasuredDeltas(xs, ys, 1.0, d);
    Confidence.VerdictKeptByGain(Deltas(xs), Deltas(ys), d);
  }
}
