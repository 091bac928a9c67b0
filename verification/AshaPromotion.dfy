/**
  What the pilot_3 refresh means: a barrier per class and a top-k choice by rank, and results that
  do not depend on the order in which the pilot_3 reports arrive.
  */
module AshaPromotion {
  import opened Options
  import opened Collections
  import opened AshaTypes
  import opened StableSort
  import opened Promotion
  import opened AshaSpec
  import opened AshaBookkeeping
  import opened AshaLadder

  /** The trial's entry in the ranking of its class. */
  function Entry(xs: seq<Trial>, i: nat): Keyed<nat>
    requires i < |xs| && Measured(xs[i])
  {
    Keyed(Delta(xs[i]), i)
  }

  lemma WinnerIsEntry(cfg: Config, xs: seq<Trial>, paper: bool, i: nat)
    requires i < |xs|
    ensures Wins(cfg, xs, paper, i) <==>
      Eligible(xs[i], paper) && Entry(xs, i) in Winners(cfg, xs, paper)
  {
    var ws := Winners(cfg, xs, paper);
    WinnersAreEligible(cfg, xs, paper);
    if p :| 0 <= p < |ws| && ws[p].item == i {
      assert Names(xs, paper, ws[p]);
    }
  }

  /** Sorting and cutting picks exactly the eligible trials with fewer rivals than there are slots. */
  lemma WinsByRank(cfg: Config, xs: seq<Trial>, paper: bool, i: nat)
    requires i < |xs|
    ensures Wins(cfg, xs, paper, i) <==>
      Eligible(xs[i], paper) && |Rivals(Candidates(xs, paper), Entry(xs, i))| < Slots(cfg, xs, paper)
  {
    WinnerIsEntry(cfg, xs, paper, i);
    CandidatesAreEligible(xs, paper);
    if Eligible(xs[i], paper) {
      EligibleAreCandidates(xs, paper, i);
      CutKeepsBest(Candidates(xs, paper), Entry(xs, i), Slots(cfg, xs, paper));
    }
  }

  /**
    The refresh in closed form: every trial is first held against its own guard, and then moves on
    exactly if it still waits, has no pilot_10 evidence, and fewer eligible classmates rank ahead of it
    than its class has slots.
    */
  lemma RefreshExactly(cfg: Config, xs: seq<Trial>, i: nat)
    requires i < |xs|
    ensures var paper := xs[i].card.paper;
      var ys := ScreenClass(cfg, xs, paper);
      Refresh(cfg, xs)[i] ==
      if Eligible(ys[i], paper) && |Rivals(Candidates(ys, paper), Entry(ys, i))| < Slots(cfg, ys, paper)
         && Promotable(ys[i])
      then Promote(ys[i]) else ys[i]
  {
    var paper := xs[i].card.paper;
    RefreshByClass(cfg, xs, paper);
    RefreshClassFrame(cfg, xs, !paper);
    WinsByRank(cfg, ScreenClass(cfg, xs, paper), paper, i);
  }

  lemma ScreenKeepsBarrier(cfg: Config, xs: seq<Trial>, paper: bool)
    ensures Barrier(ScreenClass(cfg, xs, paper), paper) == Barrier(xs, paper)
  {
    var ys := ScreenClass(cfg, xs, paper);
    if i :| 0 <= i < |xs| && xs[i].card.paper == paper && Owes(xs[i]) {
      assert Owes(ys[i]);
    }
    if i :| 0 <= i < |ys| && ys[i].card.paper == paper && Owes(ys[i]) {
      assert Owes(xs[i]);
    }
  }

  /** The barrier: while a classmate owes pilot_3, the refresh only applies the guards. */
  lemma BarrierHolds(cfg: Config, xs: seq<Trial>, i: nat)
    requires i < |xs| && Barrier(xs, xs[i].card.paper)
    ensures Refresh(cfg, xs)[i] == Screen(cfg, xs[i])
  {
    RefreshExactly(cfg, xs, i);
    ScreenKeepsBarrier(cfg, xs, xs[i].card.paper);
  }

  predicate NewlyPromoted(cfg: Config, xs: seq<Trial>, i: nat)
    requires i < |xs|
  {
    xs[i].status.Waiting? && Refresh(cfg, xs)[i].status.PromotionPending?
  }

  /** A larger delta means at most as many rivals. */
  lemma FewerRivals(xs: seq<Keyed<nat>>, a: Keyed<nat>, b: Keyed<nat>)
    requires Beats(a, b)
    ensures |Rivals(xs, a)| <= |Rivals(xs, b)|
  {
    SubsetSize(Rivals(xs, a), Rivals(xs, b));
  }

  /** Nobody eligible outside the slots beats somebody promoted; ties go to registration. */
  lemma {:induction false} PromotedAreBest(cfg: Config, xs: seq<Trial>, i: nat, j: nat)
    requires i < |xs| && j < |xs| && xs[i].card.paper == xs[j].card.paper
    requires NewlyPromoted(cfg, xs, i)
    requires var ys := ScreenClass(cfg, xs, xs[i].card.paper);
      Eligible(ys[j], xs[i].card.paper) && !Wins(cfg, ys, xs[i].card.paper, j)
    ensures Measured(xs[i]) && Measured(xs[j])
    ensures Delta(xs[i]) > Delta(xs[j]) || (Delta(xs[i]) == Delta(xs[j]) && i < j)
  {
    var paper := xs[i].card.paper;
    var ys := ScreenClass(cfg, xs, paper);
    RefreshExactly(cfg, xs, i);
    WinsByRank(cfg, ys, paper, i);
    WinsByRank(cfg, ys, paper, j);
    if Beats(Entry(ys, j), Entry(ys, i)) {
      FewerRivals(Candidates(ys, paper), Entry(ys, j), Entry(ys, i));
    }
  }

  function Items(cs: seq<Keyed<nat>>): set<nat> {
    set p | 0 <= p < |cs| :: cs[p].item
  }

  lemma {:induction false} ItemsBound(cs: seq<Keyed<nat>>)
    ensures |Items(cs)| <= |cs|
  {
    if cs != [] {
      var front := cs[..|cs| - 1];
      ItemsBound(front);
      forall i | i in Items(cs) ensures i in Items(front) + {cs[|cs| - 1].item} {
        var p :| 0 <= p < |cs| && cs[p].item == i;
        assert p < |front| ==> front[p].item == i;
      }
      SubsetSize(Items(cs), Items(front) + {cs[|cs| - 1].item});
    }
  }

  /** A class never promotes more trials than it has slots. */
  lemma AtMostSlots(cfg: Config, xs: seq<Trial>, paper: bool)
    ensures |set i | 0 <= i < |xs| && xs[i].card.paper == paper && NewlyPromoted(cfg, xs, i)|
      <= Slots(cfg, ScreenClass(cfg, xs, paper), paper)
  {
    var ys := ScreenClass(cfg, xs, paper);
    var ws := Winners(cfg, ys, paper);
    ItemsBound(ws);
    var ps := set i | 0 <= i < |xs| && xs[i].card.paper == paper && NewlyPromoted(cfg, xs, i);
    forall i | i in ps ensures i in Items(ws) {
      PromotedWins(cfg, xs, i);
    }
    SubsetSize(ps, Items(ws));
  }

  lemma PromotedWins(cfg: Config, xs: seq<Trial>, i: nat)
    requires i < |xs| && NewlyPromoted(cfg, xs, i)
    ensures Wins(cfg, ScreenClass(cfg, xs, xs[i].card.paper), xs[i].card.paper, i)
  {
    RefreshExactly(cfg, xs, i);
    WinsByRank(cfg, ScreenClass(cfg, xs, xs[i].card.paper), xs[i].card.paper, i);
  }
}
