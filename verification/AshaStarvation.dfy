/**
  The price of pre-emption: a paper trial that waits after pilot_3 still counts as pending work, so
  a study can go quiet while a native trial has had nothing.
  */
module AshaStarvation {
  import opened Options
  import opened AshaTypes
  import opened StableSort
  import opened Promotion
  import opened AshaSpec
  import opened AshaBookkeeping
  import opened AshaLadder
  import opened AshaRuns
  import opened AshaPromotion
  import opened AshaAllocation
  import opened AshaStranding

  ghost predicate UnsettledNative(s: Study) {
    exists i :: 0 <= i < |s.trials| && !s.trials[i].card.paper && !Settled(s.trials[i])
  }

  ghost predicate PapersSettled(s: Study) {
    forall i :: 0 <= i < |s.trials| && s.trials[i].card.paper ==> Settled(s.trials[i])
  }

  ghost predicate WaitingPaper(s: Study) {
    exists i :: 0 <= i < |s.trials| && s.trials[i].card.paper && s.trials[i].status.Waiting?
  }

  /**
    With full runs authorized, an unsettled native trial is offered nothing exactly when all papers
    are settled and one of them is waiting.
    */
  lemma NativesStarveExactly(s: Study)
    requires Inv(s) && UnsettledNative(s) && PapersSettled(s)
    ensures Next(s, true).1.None? <==> WaitingPaper(s)
  {
    QuiescentExactly(s);
    if PaperPending(s.trials, true) {
      var i :| 0 <= i < |s.trials| && s.trials[i].card.paper && RunnableStatus(s.trials[i].status, true);
      assert Settled(s.trials[i]);
    }
    if WaitingPaper(s) {
      var i :| 0 <= i < |s.trials| && s.trials[i].card.paper && s.trials[i].status.Waiting?;
      assert RunnableStatus(s.trials[i].status, true);
    }
  }

  // A run that ends so: the second paper fails its pilot_3, which does not make the first one move on

  function Newly(id: string, paper: bool): Trial {
    Trial(Card(id, id, paper, false, id, None, {}, {}, {}, {}, {}, None), Waiting, Some(Pilot3), [], NoReason, false)
  }

  const GOOD: Observation := Observation(P3, Evidence("node", Some(1.0), true, true, 1, Some(true), "", true, ""))
  const BROKEN: Observation := Observation(P3, Evidence("node", None, false, false, 0, None, "", false, "crashed"))

  const W: Trial := Newly("a", true)
  const F: Trial := Newly("b", true)
  const N: Trial := Newly("c", false)

  ghost predicate Reached(s: Study) {
    exists es :: Disciplined(EmptyStudy(DEFAULT_CONFIG), es) && Run(EmptyStudy(DEFAULT_CONFIG), es) == s
  }

  lemma Proceed(s: Study, e: Event, r: Study)
    requires Reached(s) && Enabled(s, e) && Apply(s, e) == r
    ensures Reached(r)
  {
    var es :| Disciplined(EmptyStudy(DEFAULT_CONFIG), es) && Run(EmptyStudy(DEFAULT_CONFIG), es) == s;
    DisciplinedConcat(EmptyStudy(DEFAULT_CONFIG), es, [e]);
    RunConcat(EmptyStudy(DEFAULT_CONFIG), es, [e]);
  }

  /** Nothing outstanding: the request for a study with pending paper work picks among the papers. */
  lemma AskIdle(s: Study, i: nat, k: Key)
    requires i < |s.trials| && PaperPending(s.trials, true) && Select(s, Order(s.trials, true), true) == Some(i)
    requires forall j :: 0 <= j < |s.assignments| ==> !Outstanding(s.assignments[j].status)
    requires Choice(s.cfg, s.trials[i], true) == Some(k) && 1 <= k.seed <= |s.cfg.seeds|
    ensures Next(s, true).0 == Issue(s, i, k).0
  {
    forall m | 0 <= m < |s.trials| ensures DeferTrial(s.assignments, s.trials[m]) == s.trials[m] {
      LastOutstandingNone(s.assignments, s.trials[m].card.id);
    }
    assert DeferNative(s).trials == s.trials && DeferNative(s).assignments == s.assignments;
    RecoverableNone(s.trials, s.assignments, true, true);
  }

  lemma PapersOf(a: Trial, b: Trial, c: Trial)
    requires a.card.paper && b.card.paper && !c.card.paper
    ensures Order([a, b, c], true) == [0, 1]
  {
    assert [a, b, c][..2] == [a, b] && [a, b][..1] == [a] && [a][..0] == [];
    assert ClassOrder([a], true) == [0] && ClassOrder([a, b], true) == [0, 1];
  }

  const A0: Assignment := NewAssignment(Study(DEFAULT_CONFIG, [], []), W, P3)
  const A1: Assignment := NewAssignment(Study(DEFAULT_CONFIG, [], []), F, P3)
  const SPENT: Assignment := A0.(status := AssignmentStatus.Completed, nodeId := Some("node"))
  const CRASHED: Assignment := A1.(status := AssignmentStatus.Failed, nodeId := Some("node"))
  const WAITING: Trial := W.(pending := None, observations := [GOOD])
  const FAILED: Trial :=
    F.(status := TrialStatus.Failed, pending := None, observations := [BROKEN], reason := Text("crashed"))

  const ENROLLED: Study := Study(DEFAULT_CONFIG, [W, F, N], [])
  const ASKED: Study := Study(DEFAULT_CONFIG, [W, F, N], [A0])
  const DELIVERED: Study := Study(DEFAULT_CONFIG, [WAITING, F, N], [SPENT])
  const ASKED_AGAIN: Study := Study(DEFAULT_CONFIG, [WAITING, F, N], [SPENT, A1])
  const STARVED: Study := Study(DEFAULT_CONFIG, [WAITING, FAILED, N], [SPENT, CRASHED])

  lemma Enrolling()
    ensures Reached(ENROLLED)
  {
    assert Run(EmptyStudy(DEFAULT_CONFIG), []) == EmptyStudy(DEFAULT_CONFIG);
    assert [W, F][..1] == [W];
    Proceed(EmptyStudy(DEFAULT_CONFIG), Enroll(W), Study(DEFAULT_CONFIG, [W], []));
    Proceed(Study(DEFAULT_CONFIG, [W], []), Enroll(F), Study(DEFAULT_CONFIG, [W, F], []));
    Proceed(Study(DEFAULT_CONFIG, [W, F], []), Enroll(N), ENROLLED);
  }

  lemma FirstAsk()
    ensures Apply(ENROLLED, Ask(true)) == ASKED
  {
    PapersOf(W, F, N);
    assert ENROLLED.trials[0].card.paper && RunnableStatus(ENROLLED.trials[0].status, true);
    assert FirstAt(ENROLLED, [0, 1], true, Pilot3) == Some(0);
    AskIdle(ENROLLED, 0, P3);
  }

  lemma FirstRefresh(xs: seq<Trial>)
    requires xs == [WAITING, F, N]
    ensures Refresh(DEFAULT_CONFIG, xs) == xs
  {
    assert xs[1].card.paper && Owes(xs[1]) && !xs[2].card.paper && Owes(xs[2]);
    forall i | 0 <= i < 3 ensures Refresh(DEFAULT_CONFIG, xs)[i] == xs[i] {
      BarrierHolds(DEFAULT_CONFIG, xs, i);
    }
  }

  lemma FirstReport()
    ensures Enabled(ASKED, Deliver(0, GOOD)) && Apply(ASKED, Deliver(0, GOOD)) == DELIVERED
  {
    assert Settle(DEFAULT_CONFIG, Recorded(W, GOOD), GOOD) == WAITING;
    FirstRefresh(ASKED.trials[0 := WAITING]);
    assert FinishAssignment([A0], "a", GOOD) == [SPENT];
  }

  lemma SecondSelected()
    ensures PaperPending(DELIVERED.trials, true) && Select(DELIVERED, Order(DELIVERED.trials, true), true) == Some(1)
  {
    PapersOf(WAITING, F, N);
    assert DELIVERED.trials[1].card.paper && RunnableStatus(DELIVERED.trials[1].status, true);
    assert [0, 1][1..] == [1];
    assert FirstAt(DELIVERED, [0, 1], true, Pilot3) == Some(1);
  }

  lemma SecondAsk()
    ensures Apply(DELIVERED, Ask(true)) == ASKED_AGAIN
  {
    SecondSelected();
    AskIdle(DELIVERED, 1, P3);
    assert [SPENT][..0] == [];
    assert FindKey([SPENT], "b", P3) == None;
  }

  lemma SecondReport()
    ensures Enabled(ASKED_AGAIN, Deliver(1, BROKEN)) && Apply(ASKED_AGAIN, Deliver(1, BROKEN)) == STARVED
  {
    assert [SPENT, A1][..1] == [SPENT] && [SPENT][..0] == [];
    assert FindKey([SPENT, A1], "b", P3) == Some(1);
    assert FinishAssignment([SPENT, A1], "b", BROKEN) == [SPENT, CRASHED];
    assert Settle(DEFAULT_CONFIG, Recorded(F, BROKEN), BROKEN) == FAILED;
  }

  lemma StarvedIsReached()
    ensures Reached(STARVED)
  {
    Enrolling();
    FirstAsk();
    Proceed(ENROLLED, Ask(true), ASKED);
    FirstReport();
    Proceed(ASKED, Deliver(0, GOOD), DELIVERED);
    SecondAsk();
    Proceed(DELIVERED, Ask(true), ASKED_AGAIN);
    SecondReport();
    Proceed(ASKED_AGAIN, Deliver(1, BROKEN), STARVED);
  }

  lemma ReachedInv(s: Study)
    requires Reached(s)
    ensures Inv(s)
  {
    var es :| Disciplined(EmptyStudy(DEFAULT_CONFIG), es) && Run(EmptyStudy(DEFAULT_CONFIG), es) == s;
    ReachableInv(DEFAULT_CONFIG, es);
  }

  /** The first paper waits, the second is settled, the native trial has had nothing: nothing is offered. */
  lemma HeldOff(s: Study, x: Trial)
    requires Inv(s) && s.trials == [WAITING, x, N] && (x.card.paper ==> Settled(x))
    ensures Next(s, true).1.None? && UnsettledNative(s)
  {
    hide Next, Inv;
    assert !s.trials[2].card.paper && !Settled(s.trials[2]);
    assert s.trials[0].card.paper && s.trials[0].status.Waiting? && Settled(s.trials[0]);
    NativesStarveExactly(s);
  }

  /**
    A disciplined run reaches a state in which nothing is offered any more although the native trial
    never had a turn.  The second paper's failed pilot_3 did not make the cohort be reconsidered, so the
    first, which a refresh would promote, is left waiting and holds the native trial off.
    */
  lemma NativeStarves()
    ensures Reached(STARVED) && Next(STARVED, true).1.None? && UnsettledNative(STARVED) && Stranded(STARVED, 0)
  {
    hide Next, Inv, Refresh, Settled;
    StarvedIsReached();
    ReachedInv(STARVED);
    FailedIsSettled();
    HeldOff(STARVED, FAILED);
    WouldBePromoted(STARVED.trials);
  }

  lemma FailedIsSettled()
    ensures Settled(FAILED) && Settled(LOST)
  {
  }

  lemma OnlyCandidate(xs: seq<Trial>)
    requires xs == [WAITING, FAILED, N]
    ensures Candidates(xs, true) == [Keyed(1.0, 0)] && CompletedCount(xs, true) == 1 && !Barrier(xs, true)
  {
    assert xs[..2] == [WAITING, FAILED] && [WAITING, FAILED][..1] == [WAITING] && [WAITING][..0] == [];
    assert Candidates([WAITING], true) == [Keyed(1.0, 0)] && CompletedCount([WAITING], true) == 1;
    assert Candidates([WAITING, FAILED], true) == [Keyed(1.0, 0)] && CompletedCount([WAITING, FAILED], true) == 1;
  }

  lemma OneSlot(xs: seq<Trial>)
    requires xs == [WAITING, FAILED, N]
    ensures Slots(DEFAULT_CONFIG, xs, true) == 1
  {
    OnlyCandidate(xs);
  }

  lemma Unscreened(xs: seq<Trial>)
    requires xs == [WAITING, FAILED, N]
    ensures ScreenClass(DEFAULT_CONFIG, xs, true) == xs && xs[0].card.paper
    ensures Eligible(xs[0], true) && Promotable(xs[0]) && Entry(xs, 0) == Keyed(1.0, 0)
  {
    assert Lookup([GOOD], P10) == Lookup([], P10);
  }

  /** The only candidate of a class with a free slot moves on. */
  lemma SoleCandidateMoves(cfg: Config, xs: seq<Trial>, i: nat)
    requires i < |xs| && Eligible(xs[i], xs[i].card.paper) && Promotable(xs[i])
    requires ScreenClass(cfg, xs, xs[i].card.paper) == xs && Slots(cfg, xs, xs[i].card.paper) > 0
    requires Candidates(xs, xs[i].card.paper) == [Entry(xs, i)]
    ensures Refresh(cfg, xs)[i] == Promote(xs[i])
  {
    assert Rivals([Entry(xs, i)], Entry(xs, i)) == {};
    RefreshExactly(cfg, xs, i);
  }

  lemma WouldBePromoted(xs: seq<Trial>)
    requires xs == [WAITING, FAILED, N]
    ensures Refresh(DEFAULT_CONFIG, xs)[0] == Promote(WAITING)
  {
    OnlyCandidate(xs);
    OneSlot(xs);
    Unscreened(xs);
    SoleCandidateMoves(DEFAULT_CONFIG, xs, 0);
  }

  // Another run that ends so: the second paper wins the slot and loses it again at pilot_10

  const BETTER: Observation := Observation(P3, Evidence("node", Some(2.0), true, true, 1, Some(true), "", true, ""))
  const POOR: Observation := Observation(P10, Evidence("node", Some(-1.0), true, true, 0, Some(true), "", true, ""))

  const AHEAD: Trial := F.(pending := None, observations := [BETTER])
  const WON: Trial := Promote(AHEAD)
  const LOST: Trial :=
    WON.(status := Eliminated, pending := None, observations := [BETTER, POOR], reason := NonPositiveDelta(Pilot10))

  const CLOSED: Assignment := A1.(status := AssignmentStatus.Completed, nodeId := Some("node"))
  const A2: Assignment := NewAssignment(Study(DEFAULT_CONFIG, [], []), WON, P10)
  const CLOSED_TOO: Assignment := A2.(status := AssignmentStatus.Completed, nodeId := Some("node"))

  const PROMOTED: Study := Study(DEFAULT_CONFIG, [WAITING, WON, N], [SPENT, CLOSED])
  const ASKED_THIRD: Study := Study(DEFAULT_CONFIG, [WAITING, WON, N], [SPENT, CLOSED, A2])
  const DROPPED: Study := Study(DEFAULT_CONFIG, [WAITING, LOST, N], [SPENT, CLOSED, CLOSED_TOO])

  lemma TwoCandidates(xs: seq<Trial>)
    requires xs == [WAITING, AHEAD, N]
    ensures Candidates(xs, true) == [Keyed(1.0, 0), Keyed(2.0, 1)] && CompletedCount(xs, true) == 2
    ensures !Barrier(xs, true) && Barrier(xs, false)
  {
    assert xs[..2] == [WAITING, AHEAD] && [WAITING, AHEAD][..1] == [WAITING] && [WAITING][..0] == [];
    assert Candidates([WAITING], true) == [Keyed(1.0, 0)] && CompletedCount([WAITING], true) == 1;
    assert Candidates([WAITING, AHEAD], true) == [Keyed(1.0, 0), Keyed(2.0, 1)];
    assert CompletedCount([WAITING, AHEAD], true) == 2;
    assert !xs[2].card.paper && Owes(xs[2]);
  }

  lemma UnscreenedTwo(xs: seq<Trial>)
    requires xs == [WAITING, AHEAD, N]
    ensures ScreenClass(DEFAULT_CONFIG, xs, true) == xs && Screen(DEFAULT_CONFIG, xs[2]) == xs[2]
    ensures Eligible(xs[0], true) && Entry(xs, 0) == Keyed(1.0, 0)
    ensures Eligible(xs[1], true) && Promotable(xs[1]) && Entry(xs, 1) == Keyed(2.0, 1)
  {
    assert Lookup([BETTER], P10) == Lookup([], P10);
  }

  lemma SecondWins(xs: seq<Trial>)
    requires xs == [WAITING, AHEAD, N]
    ensures Refresh(DEFAULT_CONFIG, xs) == [WAITING, WON, N]
  {
    hide Candidates, CompletedCount, Screen, ScreenClass, Refresh, Eligible, Promotable, Measured, Barrier;
    TwoCandidates(xs);
    UnscreenedTwo(xs);
    var cs := [Keyed(1.0, 0), Keyed(2.0, 1)];
    assert Rivals(cs, Keyed(1.0, 0)) == {Keyed(2.0, 1)} && Rivals(cs, Keyed(2.0, 1)) == {};
    RefreshExactly(DEFAULT_CONFIG, xs, 0);
    RefreshExactly(DEFAULT_CONFIG, xs, 1);
    BarrierHolds(DEFAULT_CONFIG, xs, 2);
  }

  lemma SecondReportWins()
    ensures Enabled(ASKED_AGAIN, Deliver(1, BETTER)) && Apply(ASKED_AGAIN, Deliver(1, BETTER)) == PROMOTED
  {
    hide Refresh;
    assert [SPENT, A1][..1] == [SPENT] && [SPENT][..0] == [];
    assert FindKey([SPENT, A1], "b", P3) == Some(1);
    assert FinishAssignment([SPENT, A1], "b", BETTER) == [SPENT, CLOSED];
    assert Settle(DEFAULT_CONFIG, Recorded(F, BETTER), BETTER) == AHEAD;
    SecondWins(ASKED_AGAIN.trials[1 := AHEAD]);
  }

  lemma WinnerSelected()
    ensures PaperPending(PROMOTED.trials, true) && Select(PROMOTED, Order(PROMOTED.trials, true), true) == Some(1)
  {
    PapersOf(WAITING, WON, N);
    assert PROMOTED.trials[1].card.paper && RunnableStatus(PROMOTED.trials[1].status, true);
    assert [0, 1][1..] == [1];
    assert FirstAt(PROMOTED, [0, 1], true, Pilot10) == Some(1);
  }

  lemma ThirdAsk()
    ensures Apply(PROMOTED, Ask(true)) == ASKED_THIRD
  {
    hide Select;
    WinnerSelected();
    AskIdle(PROMOTED, 1, P10);
    assert [SPENT, CLOSED][..1] == [SPENT] && [SPENT][..0] == [];
    assert FindKey([SPENT], "b", P10) == None && FindKey([SPENT, CLOSED], "b", P10) == None;
  }

  lemma ThirdReport()
    ensures Enabled(ASKED_THIRD, Deliver(1, POOR)) && Apply(ASKED_THIRD, Deliver(1, POOR)) == DROPPED
  {
    assert [SPENT, CLOSED, A2][..2] == [SPENT, CLOSED] && [SPENT, CLOSED][..1] == [SPENT] && [SPENT][..0] == [];
    assert FindKey([SPENT], "b", P10) == None && FindKey([SPENT, CLOSED], "b", P10) == None;
    assert FindKey([SPENT, CLOSED, A2], "b", P10) == Some(2);
    assert FinishAssignment([SPENT, CLOSED, A2], "b", POOR) == [SPENT, CLOSED, CLOSED_TOO];
    assert [BETTER][..0] == [] && Without([BETTER][..0], P10) == [];
    assert Record([BETTER], POOR) == [BETTER, POOR];
    assert Settle(DEFAULT_CONFIG, Recorded(WON, POOR), POOR) == LOST;
  }

  lemma DroppedIsReached()
    ensures Reached(DROPPED)
  {
    Enrolling();
    FirstAsk();
    Proceed(ENROLLED, Ask(true), ASKED);
    FirstReport();
    Proceed(ASKED, Deliver(0, GOOD), DELIVERED);
    SecondAsk();
    Proceed(DELIVERED, Ask(true), ASKED_AGAIN);
    SecondReportWins();
    Proceed(ASKED_AGAIN, Deliver(1, BETTER), PROMOTED);
    ThirdAsk();
    Proceed(PROMOTED, Ask(true), ASKED_THIRD);
    ThirdReport();
    Proceed(ASKED_THIRD, Deliver(1, POOR), DROPPED);
  }

  lemma OnlyOneLeft(xs: seq<Trial>)
    requires xs == [WAITING, LOST, N]
    ensures Candidates(xs, true) == [Keyed(1.0, 0)] && CompletedCount(xs, true) == 2 && !Barrier(xs, true)
    ensures Promising(xs[0]) && Entry(xs, 0) == Keyed(1.0, 0)
  {
    assert xs[..2] == [WAITING, LOST] && [WAITING, LOST][..1] == [WAITING] && [WAITING][..0] == [];
    LostLookups();
    assert Candidates([WAITING], true) == [Keyed(1.0, 0)] && CompletedCount([WAITING], true) == 1;
    assert Candidates([WAITING, LOST], true) == [Keyed(1.0, 0)] && CompletedCount([WAITING, LOST], true) == 2;
  }

  lemma LostLookups()
    ensures At(LOST, P3) == Some(BETTER.evidence) && Lookup([GOOD], P10) == None
  {
    assert LOST.observations == [BETTER, POOR] && [BETTER, POOR][..1] == [BETTER] && [BETTER][..0] == [];
    assert Lookup([BETTER], P3) == Some(BETTER.evidence);
    assert POOR.key == P10 && P10 != P3;
    assert Lookup([BETTER, POOR], P3) == Lookup([BETTER], P3);
    assert [GOOD][..0] == [] && Lookup([], P10) == None;
    assert Lookup([GOOD], P10) == Lookup([GOOD][..0], P10);
  }

  /**
    A disciplined run in which the winner of the only slot is eliminated at pilot_10: the other paper,
    which a refresh would now promote, is left waiting, and again holds the native trial off.
    */
  lemma SlotIsLost()
    ensures Reached(DROPPED) && Next(DROPPED, true).1.None? && UnsettledNative(DROPPED) && Stranded(DROPPED, 0)
  {
    hide Next, Inv, Refresh, Settled, Stranded, Candidates, CompletedCount, Promising, Barrier;
    DroppedIsReached();
    ReachedInv(DROPPED);
    FailedIsSettled();
    HeldOff(DROPPED, LOST);
    OnlyOneLeft(DROPPED.trials);
    assert Rivals([Keyed(1.0, 0)], Keyed(1.0, 0)) == {};
    assert DROPPED.trials[0].card.paper && FreeSlots(DEFAULT_CONFIG, true, 2, 1) == 1;
    StrandedExactly(DROPPED, 0);
  }
}
