/**
  Five public calls after which two pilots are being worked on at once: a native allocation is put aside
  for a paper one, and mark_running then claims the one that was put aside.
  */
module AshaRevival {
  import opened Options
  import opened AshaTypes
  import opened Promotion
  import opened AshaSpec
  import opened AshaBookkeeping
  import opened AshaLadder
  import opened AshaCalls
  import opened Registration

  const NATIVE: Request := NativeRequest("a")

  const PAPER_NODE: Node := Node(true, true, false, false, false, "paper", "", EligibleState, false, true)
  const PLAN: Plan := Plan("hash", "protocol", "node", "candidate")
  const PAPER: Request := Request("b", "b", PAPER_NODE, None, None, {}, true, Some(PLAN), {}, {}, {}, {})

  const CLAIM: Call := DoMark("a", P3, None, None)
  const CALLS: seq<Call> := [DoRegister(NATIVE), DoNext(false), DoRegister(PAPER), DoNext(false), CLAIM]

  const T0: Trial := FreshTrial("a", NATIVE)
  const T1: Trial := FreshTrial("b", PAPER)
  const PUT_BACK: Trial := T0.(deferredForPaper := true)
  const A0: Assignment := NewAssignment(Study(DEFAULT_CONFIG, [], []), T0, P3)
  const A1: Assignment := NewAssignment(Study(DEFAULT_CONFIG, [], []), T1, P3)
  const DEFERRED: Assignment := A0.(status := Deferred)

  const START: Study := Study(DEFAULT_CONFIG, [], [])
  const ONE: Study := Study(DEFAULT_CONFIG, [T0], [])
  const OFFERED: Study := Study(DEFAULT_CONFIG, [T0], [A0])
  const TWO: Study := Study(DEFAULT_CONFIG, [T0, T1], [A0])
  const YIELDED: Study := Study(DEFAULT_CONFIG, [PUT_BACK, T1], [DEFERRED])
  const HANDED: Study := Study(DEFAULT_CONFIG, [PUT_BACK, T1], [DEFERRED, A1])

  lemma NativeRegistered()
    ensures Perform(START, DoRegister(NATIVE)) == ONE
  {
  }

  lemma NativeOffered()
    ensures Perform(ONE, DoNext(false)) == OFFERED
  {
    assert ClassOrder([T0][..0], true) == [] && ClassOrder([T0][..0], false) == [];
    assert ClassOrder([T0], true) == [] && ClassOrder([T0], false) == [0];
    assert !PaperPending([T0], false);
    assert FirstAt(ONE, [0], false, Pilot3) == Some(0);
  }

  lemma PaperRegistered()
    ensures Perform(OFFERED, DoRegister(PAPER)) == TWO
  {
    assert [T0][..0] == [];
    assert "a" != "b" && "fp" != "paper";
    assert Find([T0], "b") == None;
    assert [T0, T1][..1] == [T0];
    assert PriorFailures([T0], T1) == 0 && PriorFailures([T0, T1], T1) == 0;
  }

  lemma NativePutBack()
    ensures Yielded(TWO, false) == YIELDED && PaperPending(TWO.trials, false)
  {
    assert TWO.trials[1].card.paper && RunnableStatus(TWO.trials[1].status, false);
    assert [T0, T1][..1] == [T0] && [T0][..0] == [];
    assert Find([T0], "a") == Some(0) && Find([T0, T1], "a") == Some(0);
    assert [A0][..0] == [];
    assert LastOutstanding([A0], "a") == Some(Pilot3) && LastOutstanding([A0], "b") == None;
    assert DeferNative(TWO).trials == [PUT_BACK, T1] && DeferNative(TWO).assignments == [DEFERRED];
  }

  lemma PaperSelected()
    ensures Select(YIELDED, Order(YIELDED.trials, true), false) == Some(1)
    ensures Choice(DEFAULT_CONFIG, T1, false) == Some(P3)
  {
    hide FreshTrial;
    QueuedPaper();
    assert [PUT_BACK, T1][..1] == [PUT_BACK] && [PUT_BACK][..0] == [];
    assert ClassOrder([PUT_BACK][..0], true) == [];
    assert ClassOrder([PUT_BACK], true) == [];
    assert ClassOrder([PUT_BACK, T1], true) == [1];
    assert FirstAt(YIELDED, [1], false, Pilot3) == Some(1);
  }

  lemma QueuedPaper()
    ensures T1.card.paper && T1.status.Waiting? && T1.pending == Some(Pilot3) && T1.observations == []
    ensures !PUT_BACK.card.paper
  {
  }

  lemma PaperOffered()
    ensures Perform(TWO, DoNext(false)) == HANDED
  {
    hide Select, Order, Yielded, DeferNative, Choice;
    NativePutBack();
    PaperSelected();
    assert Recoverable(YIELDED.trials, [DEFERRED], false, true) == None;
    assert [DEFERRED][..0] == [];
    assert FindKey([DEFERRED], "b", P3) == None;
  }

  lemma PerformedFive(s: Study, a: Call, b: Call, c: Call, d: Call, e: Call)
    ensures Performed(s, [a, b, c, d, e]) == Perform(Perform(Perform(Perform(Perform(s, a), b), c), d), e)
  {
    hide Perform;
    var four := Perform(Perform(Perform(Perform(s, a), b), c), d);
    assert [a, b, c, d, e][1..] == [b, c, d, e] && [b, c, d, e][1..] == [c, d, e];
    assert [c, d, e][1..] == [d, e] && [d, e][1..] == [e];
    assert Performed(four, [e]) == Perform(four, e);
    assert Performed(Perform(Perform(Perform(s, a), b), c), [d, e]) == Perform(four, e);
    assert Performed(Perform(Perform(s, a), b), [c, d, e]) == Perform(four, e);
    assert Performed(Perform(s, a), [b, c, d, e]) == Perform(four, e);
  }

  lemma DeferredClaimed()
    ensures RevivesDeferred(HANDED, CLAIM) && !SingleOutstanding(Perform(HANDED, CLAIM).assignments)
  {
    assert [DEFERRED, A1][..1] == [DEFERRED] && [DEFERRED][..0] == [];
    assert FindKey([DEFERRED], "a", P3) == Some(0) && FindKey([DEFERRED, A1], "a", P3) == Some(0);
    assert [PUT_BACK, T1][..1] == [PUT_BACK] && [PUT_BACK][..0] == [];
    assert Find([PUT_BACK], "a") == Some(0) && Find([PUT_BACK, T1], "a") == Some(0);
    var asgs := Perform(HANDED, CLAIM).assignments;
    assert asgs[0].status.Running? && asgs[1] == A1;
    assert IsFull(asgs[0].key.stage) == IsFull(asgs[1].key.stage);
  }

  /** The single-outstanding rule fails at a study that five public calls reach from an empty one. */
  lemma TwoPilotsAtOnce()
    ensures SingleOutstanding(Performed(START, CALLS[..4]).assignments)
    ensures RevivesDeferred(Performed(START, CALLS[..4]), CLAIM)
    ensures !SingleOutstanding(Performed(START, CALLS).assignments)
  {
    hide Perform, RevivesDeferred;
    NativeRegistered();
    NativeOffered();
    PaperRegistered();
    PaperOffered();
    PerformedFive(START, CALLS[0], CALLS[1], CALLS[2], CALLS[3], CALLS[4]);
    FirstFour();
    DeferredClaimed();
  }

  lemma FirstFour()
    ensures Performed(START, CALLS[..4]) == HANDED
    ensures SingleOutstanding(HANDED.assignments)
  {
    hide Perform;
    NativeRegistered();
    NativeOffered();
    PaperRegistered();
    PaperOffered();
    assert CALLS[..4] == [CALLS[0], CALLS[1], CALLS[2], CALLS[3]];
    assert CALLS[..4][1..] == [CALLS[1], CALLS[2], CALLS[3]];
    assert [CALLS[1], CALLS[2], CALLS[3]][1..] == [CALLS[2], CALLS[3]];
    assert [CALLS[2], CALLS[3]][1..] == [CALLS[3]];
    assert Performed(TWO, [CALLS[3]]) == HANDED;
    assert Performed(OFFERED, [CALLS[2], CALLS[3]]) == HANDED;
    assert Performed(ONE, [CALLS[1], CALLS[2], CALLS[3]]) == HANDED;
  }
}
