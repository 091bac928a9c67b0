/**
  The pilot_3 refresh: eliminate what fails its own guard, then, once nobody in a class owes
  pilot_3, promote the best `slots` of that class to pilot_10.
  */
module Promotion {
  import opened Options
  import opened AshaTypes
  import opened StableSort
  import Reals

  const LOSS_INJECTION_PILOT_3_FLOOR: real := -0.0100

  const P3: Key := Key(Pilot3, 1)
  const P10: Key := Key(Pilot10, 1)
  const FULL1: Key := Key(FullSeed1, 1)

  function At(t: Trial, k: Key): Option<Evidence> {
    Lookup(t.observations, k)
  }

  /** The delta below which a trial is noise; loss injection is only health-checked. */
  function NoiseFloor(floor: real, card: Card): real {
    if card.lossInjection then Reals.Min(floor, LOSS_INJECTION_PILOT_3_FLOOR) else floor
  }

  function RejectionOr(rejection: string, otherwise: Reason): (r: Reason)
    ensures otherwise != NoReason ==> r != NoReason
  {
    if rejection != "" then Text(rejection) else otherwise
  }

  /** The first pilot_3 guard that a complete observation fails, or NoReason. */
  function Guard(cfg: Config, card: Card, e: Evidence): Reason
    requires e.delta.Some?
  {
    var d := e.delta.value;
    if cfg.pilot3.noiseFloor.Some? && d < NoiseFloor(cfg.pilot3.noiseFloor.value, card) then BelowNoiseFloor
    else if cfg.pilot3.requirePositive && d <= 0.0 then NonPositiveDelta(Pilot3)
    else if e.gate == Some(false) then RejectionOr(e.rejection, GateFailed(Pilot3))
    else NoReason
  }

  /** The trial has usable pilot_3 evidence and is not parked as failed or incomplete. */
  predicate Measured(t: Trial) {
    match At(t, P3)
    case None => false
    case Some(e) => e.complete && e.delta.Some? && !t.status.Failed? && !t.status.NeedsEvidence?
  }

  function Delta(t: Trial): real
    requires Measured(t)
  {
    At(t, P3).value.delta.value
  }

  /** The trial with its own pilot_3 guard applied. */
  function Screen(cfg: Config, t: Trial): Trial {
    if Measured(t) && Guard(cfg, t.card, At(t, P3).value) != NoReason
    then t.(status := Eliminated, pending := None, reason := Guard(cfg, t.card, At(t, P3).value))
    else t
  }

  function ScreenClass(cfg: Config, trials: seq<Trial>, paper: bool): (r: seq<Trial>)
    ensures |r| == |trials|
    ensures forall i :: 0 <= i < |trials| ==>
      r[i] == if trials[i].card.paper == paper then Screen(cfg, trials[i]) else trials[i]
  {
    seq(|trials|, i requires 0 <= i < |trials| =>
      if trials[i].card.paper == paper then Screen(cfg, trials[i]) else trials[i])
  }

  /** The trial still has to deliver pilot_3 evidence. */
  predicate Owes(t: Trial) {
    t.pending == Some(Pilot3) && At(t, P3).None? && !t.status.Eliminated? && !t.status.Failed?
  }

  /** Somebody in the class still owes pilot_3. */
  predicate Barrier(trials: seq<Trial>, paper: bool) {
    exists i :: 0 <= i < |trials| && trials[i].card.paper == paper && Owes(trials[i])
  }

  predicate CountsAsCompleted(t: Trial, paper: bool) {
    t.card.paper == paper && Measured(t)
  }

  function CompletedCount(trials: seq<Trial>, paper: bool): nat {
    if trials == [] then 0
    else
      CompletedCount(trials[..|trials| - 1], paper)
      + (if CountsAsCompleted(trials[|trials| - 1], paper) then 1 else 0)
  }

  predicate Eligible(t: Trial, paper: bool) {
    CountsAsCompleted(t, paper) && !t.status.Eliminated?
  }

  /** The eligible trials of a class in registration order, keyed by paired delta. */
  function Candidates(trials: seq<Trial>, paper: bool): (r: seq<Keyed<nat>>)
    ensures |r| <= |trials|
  {
    if trials == [] then []
    else
      var n := |trials| - 1;
      Candidates(trials[..n], paper)
      + (if Eligible(trials[n], paper) then [Keyed(Delta(trials[n]), n)] else [])
  }

  function Max(a: int, b: int): int {
    if a >= b then a else b
  }

  /**
    How many of a class may move on once nobody owes pilot_3, given how many have completed it and how
    many of those are still eligible: at least one paper trial, natives only from the minimum cohort on.
    */
  function FreeSlots(cfg: Config, paper: bool, completed: nat, eligible: nat): (r: nat)
    ensures r <= eligible
  {
    var minimum := if paper then 1 else cfg.pilot3.minimumCompleted;
    if completed == 0 || completed < minimum then 0
    else
      var share := Max(cfg.pilot3.minimumPromotions, completed / cfg.pilot3.reductionFactor);
      var slots := if paper then Max(1, share) else share;
      if slots <= eligible then slots else eligible
  }

  /** How many of the class may move on: none before the barrier. */
  function Slots(cfg: Config, trials: seq<Trial>, paper: bool): (r: nat)
    ensures r <= |Candidates(trials, paper)|
  {
    if Barrier(trials, paper) then 0
    else FreeSlots(cfg, paper, CompletedCount(trials, paper), |Candidates(trials, paper)|)
  }

  /** The class ranked by delta, cut at the available slots. */
  function Winners(cfg: Config, trials: seq<Trial>, paper: bool): seq<Keyed<nat>> {
    SortDesc(Candidates(trials, paper))[..Slots(cfg, trials, paper)]
  }

  predicate Wins(cfg: Config, trials: seq<Trial>, paper: bool, i: nat) {
    exists p :: 0 <= p < |Winners(cfg, trials, paper)| && Winners(cfg, trials, paper)[p].item == i
  }

  /** A winner moves on only from `waiting` and only without pilot_10 evidence. */
  predicate Promotable(t: Trial) {
    At(t, P10).None? && t.status.Waiting?
  }

  function Promote(t: Trial): Trial {
    t.(status := PromotionPending, pending := Some(Pilot10))
  }

  function PromoteClass(cfg: Config, trials: seq<Trial>, paper: bool): (r: seq<Trial>)
    ensures |r| == |trials|
    ensures forall i :: 0 <= i < |trials| ==>
      r[i] == if Wins(cfg, trials, paper, i) && Promotable(trials[i]) then Promote(trials[i]) else trials[i]
  {
    seq(|trials|, i requires 0 <= i < |trials| =>
      if Wins(cfg, trials, paper, i) && Promotable(trials[i]) then Promote(trials[i]) else trials[i])
  }

  function RefreshClass(cfg: Config, trials: seq<Trial>, paper: bool): (r: seq<Trial>)
    ensures |r| == |trials|
  {
    PromoteClass(cfg, ScreenClass(cfg, trials, paper), paper)
  }

  /** The whole refresh: the paper class, then the native class. */
  function Refresh(cfg: Config, trials: seq<Trial>): (r: seq<Trial>)
    ensures |r| == |trials|
  {
    RefreshClass(cfg, RefreshClass(cfg, trials, true), false)
  }

  // What the ranking sees of a class

  /** c names an eligible trial of the class with its own delta. */
  ghost predicate Names(trials: seq<Trial>, paper: bool, c: Keyed<nat>) {
    c.item < |trials| && Eligible(trials[c.item], paper) && c.key == Delta(trials[c.item])
  }

  lemma {:induction false} CandidatesAreEligible(trials: seq<Trial>, paper: bool)
    ensures forall c <- Candidates(trials, paper) :: Names(trials, paper, c)
    ensures Ascending(Candidates(trials, paper))
  {
    if trials != [] {
      var front := trials[..|trials| - 1];
      CandidatesAreEligible(front, paper);
      forall c <- Candidates(front, paper) ensures Names(trials, paper, c) && c.item < |front| {
        assert Names(front, paper, c);
        assert front[c.item] == trials[c.item];
      }
    }
  }

  lemma {:induction false} EligibleAreCandidates(trials: seq<Trial>, paper: bool, i: nat)
    requires i < |trials| && Eligible(trials[i], paper)
    ensures Keyed(Delta(trials[i]), i) in Candidates(trials, paper)
  {
    if i < |trials| - 1 {
      EligibleAreCandidates(trials[..|trials| - 1], paper, i);
    }
  }

  lemma WinnersAreEligible(cfg: Config, trials: seq<Trial>, paper: bool)
    ensures forall w <- Winners(cfg, trials, paper) :: Names(trials, paper, w)
  {
    var cs := Candidates(trials, paper);
    CandidatesAreEligible(trials, paper);
    SortDescCorrect(cs);
    forall w <- Winners(cfg, trials, paper) ensures Names(trials, paper, w) {
      assert w in SortDesc(cs);
      assert w in multiset(SortDesc(cs));
    }
  }

  lemma WinsMeansEligible(cfg: Config, trials: seq<Trial>, paper: bool, i: nat)
    requires Wins(cfg, trials, paper, i)
    ensures i < |trials| && Eligible(trials[i], paper)
  {
    WinnersAreEligible(cfg, trials, paper);
    var p :| 0 <= p < |Winners(cfg, trials, paper)| && Winners(cfg, trials, paper)[p].item == i;
    assert Names(trials, paper, Winners(cfg, trials, paper)[p]);
  }

  lemma WinnersStayInClass(cfg: Config, trials: seq<Trial>, paper: bool)
    ensures forall i: nat :: Wins(cfg, trials, paper, i) ==> i < |trials| && Eligible(trials[i], paper)
  {
    forall i: nat | Wins(cfg, trials, paper, i) ensures i < |trials| && Eligible(trials[i], paper) {
      WinsMeansEligible(cfg, trials, paper, i);
    }
  }

  /** Two trials look the same to the ranking. */
  ghost predicate SameView(a: Trial, b: Trial) {
    && a.card.paper == b.card.paper
    && Measured(a) == Measured(b)
    && (Measured(a) ==> Delta(a) == Delta(b) && a.status.Eliminated? == b.status.Eliminated?)
    && Owes(a) == Owes(b)
  }

  ghost predicate SameClassView(xs: seq<Trial>, ys: seq<Trial>, paper: bool) {
    && |xs| == |ys|
    && forall i :: 0 <= i < |xs| ==>
      xs[i].card.paper == ys[i].card.paper && (xs[i].card.paper == paper ==> SameView(xs[i], ys[i]))
  }

  lemma {:induction false} SameViewSameCandidates(xs: seq<Trial>, ys: seq<Trial>, paper: bool)
    requires SameClassView(xs, ys, paper)
    ensures Candidates(xs, paper) == Candidates(ys, paper)
    ensures CompletedCount(xs, paper) == CompletedCount(ys, paper)
  {
    if xs != [] {
      SameViewSameCandidates(xs[..|xs| - 1], ys[..|ys| - 1], paper);
    }
  }

  lemma SameViewSameWinners(cfg: Config, xs: seq<Trial>, ys: seq<Trial>, paper: bool)
    requires SameClassView(xs, ys, paper)
    ensures Winners(cfg, xs, paper) == Winners(cfg, ys, paper)
  {
    SameViewSameCandidates(xs, ys, paper);
    assert Barrier(xs, paper) == Barrier(ys, paper) by {
      if i :| 0 <= i < |xs| && xs[i].card.paper == paper && Owes(xs[i]) {
        assert ys[i].card.paper == paper && Owes(ys[i]);
      }
      if i :| 0 <= i < |ys| && ys[i].card.paper == paper && Owes(ys[i]) {
        assert xs[i].card.paper == paper && Owes(xs[i]);
      }
    }
  }

  // One class at a time

  /** The two studies have the same trials in one class. */
  ghost predicate AgreeOn(xs: seq<Trial>, ys: seq<Trial>, paper: bool) {
    && |xs| == |ys|
    && forall i :: 0 <= i < |xs| ==>
      xs[i].card.paper == ys[i].card.paper && (xs[i].card.paper == paper ==> xs[i] == ys[i])
  }

  lemma RefreshClassFrame(cfg: Config, xs: seq<Trial>, paper: bool)
    ensures AgreeOn(xs, RefreshClass(cfg, xs, paper), !paper)
  {
    var s := ScreenClass(cfg, xs, paper);
    WinnersStayInClass(cfg, s, paper);
  }

  lemma RefreshClassLocal(cfg: Config, xs: seq<Trial>, ys: seq<Trial>, paper: bool)
    requires AgreeOn(xs, ys, paper)
    ensures AgreeOn(RefreshClass(cfg, xs, paper), RefreshClass(cfg, ys, paper), paper)
  {
    var sx, sy := ScreenClass(cfg, xs, paper), ScreenClass(cfg, ys, paper);
    assert SameClassView(sx, sy, paper);
    SameViewSameWinners(cfg, sx, sy, paper);
    RefreshClassFrame(cfg, xs, paper);
    RefreshClassFrame(cfg, ys, paper);
  }

  /** What the refresh does to a trial is decided inside the trial's own class. */
  lemma RefreshByClass(cfg: Config, xs: seq<Trial>, paper: bool)
    ensures AgreeOn(Refresh(cfg, xs), RefreshClass(cfg, xs, paper), paper)
  {
    var ys := RefreshClass(cfg, xs, true);
    RefreshClassFrame(cfg, xs, true);
    RefreshClassFrame(cfg, ys, false);
    RefreshClassFrame(cfg, xs, false);
    if !paper {
      RefreshClassLocal(cfg, xs, ys, false);
    }
  }

  lemma AgreeOnBoth(xs: seq<Trial>, ys: seq<Trial>)
    requires AgreeOn(xs, ys, true) && AgreeOn(xs, ys, false)
    ensures xs == ys
  {
    forall i | 0 <= i < |xs| ensures xs[i] == ys[i] {
      assert xs[i].card.paper || !xs[i].card.paper;
    }
  }

  /** Each trial is left as its screened self or promoted from it, and its card and evidence stay. */
  lemma RefreshAt(cfg: Config, xs: seq<Trial>, i: nat)
    requires i < |xs|
    ensures var s, r := Screen(cfg, xs[i]), Refresh(cfg, xs)[i];
      r == s || (r == Promote(s) && Promotable(s) && Measured(s) && !s.status.Eliminated?)
  {
    var paper := xs[i].card.paper;
    RefreshByClass(cfg, xs, paper);
    WinnersStayInClass(cfg, ScreenClass(cfg, xs, paper), paper);
    RefreshClassFrame(cfg, xs, !paper);
  }

  // Idempotence

  lemma RefreshClassIdempotent(cfg: Config, xs: seq<Trial>, paper: bool)
    ensures RefreshClass(cfg, RefreshClass(cfg, xs, paper), paper) == RefreshClass(cfg, xs, paper)
  {
    var s := ScreenClass(cfg, xs, paper);
    var r := RefreshClass(cfg, xs, paper);
    WinnersStayInClass(cfg, s, paper);
    forall i | 0 <= i < |xs|
      ensures ScreenClass(cfg, r, paper)[i] == r[i]
      ensures r[i].card.paper == s[i].card.paper && SameView(s[i], r[i])
    {
    }
    assert ScreenClass(cfg, r, paper) == r;
    SameViewSameWinners(cfg, s, r, paper);
    forall i | 0 <= i < |xs| ensures PromoteClass(cfg, r, paper)[i] == r[i] {
      assert Wins(cfg, s, paper, i) == Wins(cfg, r, paper, i);
    }
  }

  /** Refreshing twice is refreshing once, from any state whatever. */
  lemma RefreshIdempotent(cfg: Config, xs: seq<Trial>)
    ensures Refresh(cfg, Refresh(cfg, xs)) == Refresh(cfg, xs)
  {
    var r := Refresh(cfg, xs);
    forall paper: bool ensures AgreeOn(Refresh(cfg, r), r, paper) {
      RefreshByClass(cfg, xs, paper);
      RefreshByClass(cfg, r, paper);
      RefreshClassLocal(cfg, r, RefreshClass(cfg, xs, paper), paper);
      RefreshClassIdempotent(cfg, xs, paper);
    }
    AgreeOnBoth(Refresh(cfg, r), r);
  }
}
