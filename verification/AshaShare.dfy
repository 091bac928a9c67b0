/**
  How many of a class move on after pilot_3, and who: a law for the number that does not compute it, and
  the refresh in terms of sets of trials.
  */
module AshaShare {
  import opened Options
  import opened Collections
  import opened AshaTypes
  import opened StableSort
  import opened Promotion
  import opened AshaSpec
  import opened AshaPromotion
  import opened AshaOutcomes

  // The law

  /** At least one paper moves on, and at least the configured minimum of either class. */
  function Floor(cfg: Config, paper: bool): nat {
    if paper && cfg.pilot3.minimumPromotions == 0 then 1 else cfg.pilot3.minimumPromotions
  }

  /** Natives move on only from a minimum cohort. */
  predicate EnoughCompleted(cfg: Config, paper: bool, completed: nat) {
    paper || completed >= cfg.pilot3.minimumCompleted
  }

  /**
    Of `completed` trials of a class, `eligible` of them not eliminated, k move on: never more than there
    are or than one in reductionFactor, except for the floor; and as many as that allows.
    */
  predicate ShareLaw(cfg: Config, paper: bool, completed: nat, eligible: nat, k: nat) {
    var factor := cfg.pilot3.reductionFactor;
    && k <= eligible
    && (k * factor <= completed || k <= Floor(cfg, paper))
    && (k < eligible && EnoughCompleted(cfg, paper, completed) ==>
          (k + 1) * factor > completed && k >= Floor(cfg, paper))
    && (!EnoughCompleted(cfg, paper, completed) ==> k == 0)
  }

  lemma QuotientBounds(n: nat, d: nat)
    requires d > 0
    ensures (n / d) * d <= n < (n / d + 1) * d
  {
  }

  lemma ProductGrows(a: nat, b: nat, d: nat)
    requires a <= b
    ensures a * d <= b * d
  {
  }

  /** The law leaves one number. */
  lemma ShareIsUnique(cfg: Config, paper: bool, completed: nat, eligible: nat, k: nat, k': nat)
    requires ShareLaw(cfg, paper, completed, eligible, k) && ShareLaw(cfg, paper, completed, eligible, k')
    ensures k == k'
  {
    if k < k' {
      ProductGrows(k + 1, k', cfg.pilot3.reductionFactor);
    }
    if k' < k {
      ProductGrows(k' + 1, k, cfg.pilot3.reductionFactor);
    }
  }

  /** The share, but no less than the floor. */
  function Allowed(floor: nat, share: nat): nat {
    if share < floor then floor else share
  }

  lemma SlotsAre(cfg: Config, paper: bool, completed: nat, eligible: nat)
    requires eligible <= completed
    ensures var allowed := Allowed(Floor(cfg, paper), completed / cfg.pilot3.reductionFactor);
      FreeSlots(cfg, paper, completed, eligible) ==
      if !EnoughCompleted(cfg, paper, completed) then 0
      else if eligible < allowed then eligible else allowed
  {
  }

  lemma LeastObeys(factor: nat, floor: nat, completed: nat, eligible: nat, k: nat)
    requires factor > 0
    requires var allowed := Allowed(floor, completed / factor); k == if eligible < allowed then eligible else allowed
    ensures k <= eligible && (k * factor <= completed || k <= floor)
    ensures k < eligible ==> (k + 1) * factor > completed && k >= floor
  {
    var share := completed / factor;
    QuotientBounds(completed, factor);
    hide *;
    if k <= share {
      ProductGrows(k, share, factor);
    }
    if k >= share {
      ProductGrows(share + 1, k + 1, factor);
    }
  }

  /** The slots of a class past its barrier obey the law. */
  lemma SlotsObeyLaw(cfg: Config, paper: bool, completed: nat, eligible: nat)
    requires eligible <= completed
    ensures ShareLaw(cfg, paper, completed, eligible, FreeSlots(cfg, paper, completed, eligible))
  {
    hide FreeSlots, Floor, Allowed, EnoughCompleted;
    SlotsAre(cfg, paper, completed, eligible);
    var factor, k := cfg.pilot3.reductionFactor, FreeSlots(cfg, paper, completed, eligible);
    if EnoughCompleted(cfg, paper, completed) {
      LeastObeys(factor, Floor(cfg, paper), completed, eligible, k);
    }
  }

  // The sets it speaks about

  /** The trial has usable pilot_3 evidence and is not parked as failed or incomplete. */
  predicate Counted(t: Trial) {
    && At(t, P3).Some? && At(t, P3).value.complete && At(t, P3).value.delta.Some?
    && t.status != TrialStatus.Failed && t.status != NeedsEvidence
  }

  function Gain(t: Trial): real
    requires Counted(t)
  {
    At(t, P3).value.delta.value
  }

  /** Its pilot_3 evidence meets all three conditions. */
  predicate MeetsPilot3(cfg: Config, t: Trial)
    requires Counted(t)
  {
    && AboveNoise(cfg, t.card, Gain(t)) && PositiveIfAsked(cfg.pilot3, Gain(t))
    && At(t, P3).value.gate != Some(false)
  }

  /** The trial stands for promotion: counted, not eliminated, and not about to be. */
  predicate Stands(cfg: Config, t: Trial, paper: bool) {
    t.card.paper == paper && Counted(t) && t.status != Eliminated && MeetsPilot3(cfg, t)
  }

  /** The trial still has to deliver pilot_3. */
  predicate Outstanding3(t: Trial) {
    t.pending == Some(Pilot3) && At(t, P3) == None && t.status != Eliminated && t.status != TrialStatus.Failed
  }

  predicate SomebodyOwes(xs: seq<Trial>, paper: bool) {
    exists i :: 0 <= i < |xs| && xs[i].card.paper == paper && Outstanding3(xs[i])
  }

  function CountedSet(xs: seq<Trial>, paper: bool): set<nat> {
    set i | 0 <= i < |xs| && xs[i].card.paper == paper && Counted(xs[i])
  }

  function StandingSet(cfg: Config, xs: seq<Trial>, paper: bool): set<nat> {
    set i | 0 <= i < |xs| && Stands(cfg, xs[i], paper)
  }

  /** Trial j gained more than trial i, or as much and registered earlier. */
  predicate Outranks(xs: seq<Trial>, j: nat, i: nat)
    requires i < |xs| && j < |xs| && Counted(xs[i]) && Counted(xs[j])
  {
    Gain(xs[j]) > Gain(xs[i]) || (Gain(xs[j]) == Gain(xs[i]) && j < i)
  }

  /** The standing classmates ranked ahead of trial i. */
  function AheadOf(cfg: Config, xs: seq<Trial>, paper: bool, i: nat): set<nat>
    requires i < |xs| && Counted(xs[i])
  {
    set j | 0 <= j < |xs| && Stands(cfg, xs[j], paper) && Outranks(xs, j, i)
  }

  /** The standing trials with fewer than k classmates ahead of them. */
  function Best(cfg: Config, xs: seq<Trial>, paper: bool, k: nat): set<nat> {
    set i | 0 <= i < |xs| && Stands(cfg, xs[i], paper) && |AheadOf(cfg, xs, paper, i)| < k
  }

  // The sets and the ranked list agree

  lemma ScreenedStands(cfg: Config, t: Trial, paper: bool)
    ensures var u := Screen(cfg, t);
      && u.card == t.card && u.observations == t.observations
      && (Measured(u) <==> Counted(t)) && (Owes(u) <==> Outstanding3(t))
      && (Eligible(u, paper) <==> Stands(cfg, t, paper))
      && (Counted(t) ==> Delta(u) == Gain(t))
  {
    if Counted(t) {
      GuardInWords(cfg, t.card, At(t, P3).value);
    }
  }

  lemma {:induction false} CompletedIsSet(ys: seq<Trial>, paper: bool)
    ensures CompletedCount(ys, paper) == |set i | 0 <= i < |ys| && CountsAsCompleted(ys[i], paper)|
  {
    hide CountsAsCompleted;
    var now := set i | 0 <= i < |ys| && CountsAsCompleted(ys[i], paper);
    if ys == [] {
      assert now == {};
    } else {
      var n := |ys| - 1;
      var before := set i | 0 <= i < n && CountsAsCompleted(ys[..n][i], paper);
      CompletedIsSet(ys[..n], paper);
      assert now == if CountsAsCompleted(ys[n], paper) then before + {n} else before;
    }
  }

  lemma NoCandidates(paper: bool)
    ensures Candidates([], paper) == []
  {
  }

  lemma OneMoreCandidate(ys: seq<Trial>, paper: bool)
    requires ys != []
    ensures var n := |ys| - 1;
      |Candidates(ys, paper)| == |Candidates(ys[..n], paper)| + if Eligible(ys[n], paper) then 1 else 0
  {
    hide Eligible, Delta;
  }

  lemma {:induction false} CandidatesAreSet(ys: seq<Trial>, paper: bool)
    ensures |Candidates(ys, paper)| == |set i | 0 <= i < |ys| && Eligible(ys[i], paper)|
  {
    hide Eligible, Candidates;
    var now := set i | 0 <= i < |ys| && Eligible(ys[i], paper);
    if ys == [] {
      NoCandidates(paper);
      assert now == {};
    } else {
      OneMoreCandidate(ys, paper);
      var n := |ys| - 1;
      var before := set i | 0 <= i < n && Eligible(ys[..n][i], paper);
      CandidatesAreSet(ys[..n], paper);
      assert now == if Eligible(ys[n], paper) then before + {n} else before;
    }
  }

  function ItemSet(es: set<Keyed<nat>>): set<nat> {
    set e | e in es :: e.item
  }

  /** Entries of one class are as many as the trials they name. */
  lemma {:induction false} ItemSetSize(ys: seq<Trial>, paper: bool, es: set<Keyed<nat>>)
    requires forall e <- es :: Names(ys, paper, e)
    ensures |ItemSet(es)| == |es|
  {
    if es == {} {
      assert ItemSet(es) == {};
    } else {
      var e :| e in es;
      ItemSetSize(ys, paper, es - {e});
      assert ItemSet(es) == ItemSet(es - {e}) + {e.item};
      forall d | d in es - {e} ensures d.item != e.item {
        assert Names(ys, paper, d) && Names(ys, paper, e);
      }
    }
  }

  /** What the refresh counts, compares and cuts, as sets of trials. */
  lemma ClassInSets(cfg: Config, xs: seq<Trial>, paper: bool)
    ensures var ys := ScreenClass(cfg, xs, paper);
      && CompletedCount(ys, paper) == |CountedSet(xs, paper)|
      && |Candidates(ys, paper)| == |StandingSet(cfg, xs, paper)|
      && (Barrier(ys, paper) <==> SomebodyOwes(xs, paper))
  {
    hide Screen, CountsAsCompleted, Eligible, Stands, Counted, Owes, Outstanding3;
    var ys := ScreenClass(cfg, xs, paper);
    CompletedIsSet(ys, paper);
    CandidatesAreSet(ys, paper);
    forall i | 0 <= i < |xs|
      ensures CountsAsCompleted(ys[i], paper) <==> xs[i].card.paper == paper && Counted(xs[i])
      ensures Eligible(ys[i], paper) <==> Stands(cfg, xs[i], paper)
      ensures ys[i].card.paper == xs[i].card.paper
      ensures ys[i].card.paper == paper ==> (Owes(ys[i]) <==> Outstanding3(xs[i]))
    {
      ClassmateInSets(cfg, xs[i], ys[i], paper);
    }
    assert (set i | 0 <= i < |ys| && CountsAsCompleted(ys[i], paper)) == CountedSet(xs, paper);
    assert (set i | 0 <= i < |ys| && Eligible(ys[i], paper)) == StandingSet(cfg, xs, paper);
    BarrierInSets(xs, ys, paper);
  }

  lemma ClassmateInSets(cfg: Config, t: Trial, u: Trial, paper: bool)
    requires u == if t.card.paper == paper then Screen(cfg, t) else t
    ensures u.card.paper == t.card.paper
    ensures CountsAsCompleted(u, paper) <==> t.card.paper == paper && Counted(t)
    ensures Eligible(u, paper) <==> Stands(cfg, t, paper)
    ensures u.card.paper == paper ==> (Owes(u) <==> Outstanding3(t))
    ensures Stands(cfg, t, paper) ==> Delta(u) == Gain(t)
  {
    ScreenedStands(cfg, t, paper);
    hide Screen, Counted, Measured, MeetsPilot3, Owes, Outstanding3;
  }

  lemma BarrierInSets(xs: seq<Trial>, ys: seq<Trial>, paper: bool)
    requires |xs| == |ys|
    requires forall i :: 0 <= i < |xs| ==> ys[i].card.paper == xs[i].card.paper
    requires forall i :: 0 <= i < |xs| && ys[i].card.paper == paper ==> (Owes(ys[i]) <==> Outstanding3(xs[i]))
    ensures Barrier(ys, paper) <==> SomebodyOwes(xs, paper)
  {
    hide Owes, Outstanding3;
    if i :| 0 <= i < |ys| && ys[i].card.paper == paper && Owes(ys[i]) {
      assert xs[i].card.paper == paper && Outstanding3(xs[i]);
    }
    if i :| 0 <= i < |xs| && xs[i].card.paper == paper && Outstanding3(xs[i]) {
      assert ys[i].card.paper == paper && Owes(ys[i]);
    }
  }

  /** As many rivals as standing classmates ahead. */
  lemma RivalsInSets(cfg: Config, xs: seq<Trial>, paper: bool, i: nat)
    requires i < |xs| && Stands(cfg, xs[i], paper)
    ensures var ys := ScreenClass(cfg, xs, paper);
      Eligible(ys[i], paper) && |Rivals(Candidates(ys, paper), Entry(ys, i))| == |AheadOf(cfg, xs, paper, i)|
  {
    hide Screen, Candidates;
    var ys := ScreenClass(cfg, xs, paper);
    ClassmateInSets(cfg, xs[i], ys[i], paper);
    var rivals := Rivals(Candidates(ys, paper), Entry(ys, i));
    CandidatesAreEligible(ys, paper);
    ItemSetSize(ys, paper, rivals);
    forall j: nat ensures j in ItemSet(rivals) <==> j in AheadOf(cfg, xs, paper, i) {
      RivalInSets(cfg, xs, paper, i, j);
    }
    assert ItemSet(rivals) == AheadOf(cfg, xs, paper, i);
  }

  lemma RivalInSets(cfg: Config, xs: seq<Trial>, paper: bool, i: nat, j: nat)
    requires i < |xs| && Stands(cfg, xs[i], paper)
    ensures var ys := ScreenClass(cfg, xs, paper);
      && Eligible(ys[i], paper)
      && (j in ItemSet(Rivals(Candidates(ys, paper), Entry(ys, i))) <==> j in AheadOf(cfg, xs, paper, i))
  {
    hide Screen, Candidates, MeetsPilot3, Counted, Lookup;
    var ys := ScreenClass(cfg, xs, paper);
    ClassmateInSets(cfg, xs[i], ys[i], paper);
    CandidatesAreEligible(ys, paper);
    if j < |xs| {
      ClassmateInSets(cfg, xs[j], ys[j], paper);
      if Eligible(ys[j], paper) {
        EligibleAreCandidates(ys, paper, j);
      }
    }
  }

  // The refresh

  /** k is the number that moves on from this class once nobody owes pilot_3. */
  predicate ShareOf(cfg: Config, xs: seq<Trial>, paper: bool, k: nat) {
    ShareLaw(cfg, paper, |CountedSet(xs, paper)|, |StandingSet(cfg, xs, paper)|, k)
  }

  lemma StandingAreCounted(cfg: Config, xs: seq<Trial>, paper: bool)
    ensures |StandingSet(cfg, xs, paper)| <= |CountedSet(xs, paper)|
  {
    SubsetSize(StandingSet(cfg, xs, paper), CountedSet(xs, paper));
  }

  /** There is such a number, and past the barrier it is what the class has as slots. */
  lemma SlotsAreShare(cfg: Config, xs: seq<Trial>, paper: bool) returns (k: nat)
    ensures ShareOf(cfg, xs, paper, k)
    ensures Slots(cfg, ScreenClass(cfg, xs, paper), paper) == if SomebodyOwes(xs, paper) then 0 else k
  {
    hide FreeSlots, ShareLaw, Barrier, Candidates, CompletedCount, ScreenClass;
    StandingAreCounted(cfg, xs, paper);
    ClassInSets(cfg, xs, paper);
    k := FreeSlots(cfg, paper, |CountedSet(xs, paper)|, |StandingSet(cfg, xs, paper)|);
    SlotsObeyLaw(cfg, paper, |CountedSet(xs, paper)|, |StandingSet(cfg, xs, paper)|);
  }

  /** The trial is at rest before pilot_10. */
  predicate MayMoveOn(t: Trial) {
    t.status == TrialStatus.Waiting && At(t, P10) == None
  }

  /** Trial i moves on: nobody owes pilot_3, and fewer than k standing classmates are ahead of it. */
  predicate MovesOn(cfg: Config, xs: seq<Trial>, i: nat, k: nat)
    requires i < |xs|
  {
    var paper := xs[i].card.paper;
    && MayMoveOn(xs[i]) && !SomebodyOwes(xs, paper)
    && Stands(cfg, xs[i], paper) && |AheadOf(cfg, xs, paper, i)| < k
  }

  lemma ScreenInWords(cfg: Config, t: Trial)
    ensures var u := Screen(cfg, t);
      if Counted(t) && !AboveNoise(cfg, t.card, Gain(t)) then DroppedFor(u, BelowNoiseFloor)
      else if Counted(t) && !PositiveIfAsked(cfg.pilot3, Gain(t)) then DroppedFor(u, NonPositiveDelta(Pilot3))
      else if Counted(t) && At(t, P3).value.gate == Some(false) then DroppedFor(u, GateReason(At(t, P3).value, Pilot3))
      else u == t
  {
    hide Lookup;
    if Counted(t) {
      GuardInWords(cfg, t.card, At(t, P3).value);
    }
  }

  lemma EligibleStands(cfg: Config, xs: seq<Trial>, i: nat)
    requires i < |xs|
    ensures var ys := ScreenClass(cfg, xs, xs[i].card.paper);
      && ys[i] == Screen(cfg, xs[i])
      && (Eligible(ys[i], xs[i].card.paper) <==> Stands(cfg, xs[i], xs[i].card.paper))
      && (Stands(cfg, xs[i], xs[i].card.paper) ==> ys[i] == xs[i])
  {
    ClassmateInSets(cfg, xs[i], Screen(cfg, xs[i]), xs[i].card.paper);
    ScreenInWords(cfg, xs[i]);
  }

  /** A trial moves on exactly as said; otherwise only its own pilot_3 evidence counts. */
  lemma MovesOnExactly(cfg: Config, xs: seq<Trial>, i: nat, k: nat)
    requires i < |xs| && ShareOf(cfg, xs, xs[i].card.paper, k)
    ensures Refresh(cfg, xs)[i] ==
      if MovesOn(cfg, xs, i, k) then xs[i].(status := PromotionPending, pending := Some(Pilot10))
      else Screen(cfg, xs[i])
  {
    var paper := xs[i].card.paper;
    var ys := ScreenClass(cfg, xs, paper);
    RefreshExactly(cfg, xs, i);
    EligibleStands(cfg, xs, i);
    var slots := SlotsAreShare(cfg, xs, paper);
    ShareIsUnique(cfg, paper, |CountedSet(xs, paper)|, |StandingSet(cfg, xs, paper)|, k, slots);
    if Stands(cfg, xs[i], paper) {
      RivalsInSets(cfg, xs, paper, i);
    }
    hide ShareLaw, Screen, ScreenClass, Stands, Eligible, Slots, SomebodyOwes, Candidates, Refresh, Rivals;
  }

  /**
    The pilot_3 refresh in words.  A counted trial is eliminated for the first condition its evidence
    fails.  Any other trial moves on to pilot_10 if and only if it waits without pilot_10 evidence, nobody
    of its class owes pilot_3, it stands, and fewer standing classmates than the law allows are ahead of
    it; and otherwise it stays as it is.
    */
  lemma RefreshInWords(cfg: Config, xs: seq<Trial>, i: nat, k: nat)
    requires i < |xs| && ShareOf(cfg, xs, xs[i].card.paper, k)
    ensures var t, u := xs[i], Refresh(cfg, xs)[i];
      if Counted(t) && !AboveNoise(cfg, t.card, Gain(t)) then DroppedFor(u, BelowNoiseFloor)
      else if Counted(t) && !PositiveIfAsked(cfg.pilot3, Gain(t)) then DroppedFor(u, NonPositiveDelta(Pilot3))
      else if Counted(t) && At(t, P3).value.gate == Some(false) then DroppedFor(u, GateReason(At(t, P3).value, Pilot3))
      else if MovesOn(cfg, xs, i, k) then u == t.(status := PromotionPending, pending := Some(Pilot10))
      else u == t
  {
    hide Refresh, Screen, AheadOf, SomebodyOwes, ShareLaw, AboveNoise;
    MovesOnExactly(cfg, xs, i, k);
    ScreenInWords(cfg, xs[i]);
  }

  /** Exactly k standing trials have fewer than k standing classmates ahead of them. */
  lemma BestAreAsMany(cfg: Config, xs: seq<Trial>, paper: bool, k: nat)
    requires k <= |StandingSet(cfg, xs, paper)|
    ensures |Best(cfg, xs, paper, k)| == k
  {
    hide Screen, Candidates, Stands, Counted, Measured, Eligible, AheadOf, SortDesc;
    var ys := ScreenClass(cfg, xs, paper);
    ClassInSets(cfg, xs, paper);
    var cs := Candidates(ys, paper);
    var top := SortDesc(cs)[..k];
    CandidatesAreEligible(ys, paper);
    SortDescRanks(cs);
    RankedElements(top);
    forall c ensures c in top <==> c in cs && |Rivals(cs, c)| < k {
      CutKeepsBest(cs, c, k);
    }
    ItemSetSize(ys, paper, Elements(top));
    forall i: nat ensures i in ItemSet(Elements(top)) <==> i in Best(cfg, xs, paper, k) {
      BestIsTop(cfg, xs, paper, k, top, i);
    }
    assert ItemSet(Elements(top)) == Best(cfg, xs, paper, k);
  }

  lemma BestIsTop(cfg: Config, xs: seq<Trial>, paper: bool, k: nat, top: seq<Keyed<nat>>, i: nat)
    requires var cs := Candidates(ScreenClass(cfg, xs, paper), paper);
      forall c :: c in top <==> c in cs && |Rivals(cs, c)| < k
    ensures i in ItemSet(Elements(top)) <==> i in Best(cfg, xs, paper, k)
  {
    hide Screen, Candidates, MeetsPilot3, Counted, Lookup, AheadOf, Rivals;
    var ys := ScreenClass(cfg, xs, paper);
    CandidatesAreEligible(ys, paper);
    if i < |xs| {
      ClassmateInSets(cfg, xs[i], ys[i], paper);
      if Stands(cfg, xs[i], paper) {
        RivalsInSets(cfg, xs, paper, i);
        EligibleAreCandidates(ys, paper, i);
      }
    }
  }

  /** So as many trials are ranked within the slots of a class as its law says. */
  lemma ShareIsRanked(cfg: Config, xs: seq<Trial>, paper: bool, k: nat)
    requires ShareOf(cfg, xs, paper, k)
    ensures |Best(cfg, xs, paper, k)| == k
    ensures forall i :: 0 <= i < |xs| && xs[i].card.paper == paper && MovesOn(cfg, xs, i, k) ==>
      i in Best(cfg, xs, paper, k)
    ensures !SomebodyOwes(xs, paper) ==>
      forall i <- Best(cfg, xs, paper, k) :: MayMoveOn(xs[i]) ==> MovesOn(cfg, xs, i, k)
  {
    BestAreAsMany(cfg, xs, paper, k);
    hide ShareLaw, AheadOf, SomebodyOwes;
  }

  /** One refresh takes no more trials of a class from waiting to pilot_10 than the law allows. */
  lemma PromotedAtMostShare(cfg: Config, xs: seq<Trial>, paper: bool, k: nat)
    requires ShareOf(cfg, xs, paper, k)
    ensures |set i | 0 <= i < |xs| && xs[i].card.paper == paper && NewlyPromoted(cfg, xs, i)| <= k
  {
    hide ShareLaw, Refresh, AheadOf, SomebodyOwes, AboveNoise;
    var promoted := set i | 0 <= i < |xs| && xs[i].card.paper == paper && NewlyPromoted(cfg, xs, i);
    ShareIsRanked(cfg, xs, paper, k);
    forall i | i in promoted ensures i in Best(cfg, xs, paper, k) {
      RefreshInWords(cfg, xs, i, k);
    }
    SubsetSize(promoted, Best(cfg, xs, paper, k));
  }
}
