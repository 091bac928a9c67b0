/**
  A completed allocation that comes back, outside disciplined runs.  `AshaReopening` proves which calls
  make this possible.
  */
module AshaReissue {
  import opened Options
  import opened AshaTypes
  import opened Promotion
  import opened AshaSpec
  import opened AshaBookkeeping
  import opened AshaLadder
  import opened AshaCalls
  import opened Registration

  /** The key the ladder would give this trial next has been consumed already. */
  predicate NextKeyIsSpent(s: Study, i: nat, confirm: bool)
    requires i < |s.trials|
  {
    var k := Choice(s.cfg, s.trials[i], confirm);
    k.Some? && Slot(s.assignments, s.trials[i].card.id, k.value).Some?
    && Consumed(Slot(s.assignments, s.trials[i].card.id, k.value).value)
  }

  /** What the ladder picks when there is nothing to recover. */
  function Pick(s: Study, confirm: bool): Option<nat> {
    var y, paperOnly := Yielded(s, confirm), PaperPending(s.trials, confirm);
    if Recoverable(y.trials, y.assignments, confirm, paperOnly).Some? then None
    else Select(y, Order(y.trials, paperOnly), confirm)
  }

  lemma IssueSpentExactly(y: Study, i: nat, confirm: bool)
    requires i < |y.trials| && Choice(y.cfg, y.trials[i], confirm).Some?
    ensures var k := Choice(y.cfg, y.trials[i], confirm).value;
      1 <= k.seed <= |y.cfg.seeds| && (Consumed(Issue(y, i, k).1.status) <==> NextKeyIsSpent(y, i, confirm))
  {
    ChoiceSeed(y.cfg, y.trials[i], confirm);
  }

  /** From any study whatever, a consumed assignment is returned exactly when the picked trial's next key is spent. */
  lemma ReturnsConsumedExactly(s: Study, confirm: bool)
    ensures (Next(s, confirm).1.Some? && Consumed(Next(s, confirm).1.value.status)) <==>
      (Pick(s, confirm).Some? && NextKeyIsSpent(Yielded(s, confirm), Pick(s, confirm).value, confirm))
  {
    var y := Yielded(s, confirm);
    if Pick(s, confirm).Some? {
      IssueSpentExactly(y, Pick(s, confirm).value, confirm);
    }
  }

  // An evidence-only allocation that comes back: it is consumed without an observation, and a second
  // registration of the same reservation queues the trial for pilot_3 again

  const SHADOW_NODE: Node := Node(true, false, false, false, true, "fp", "", PreRegisteredState, false, false)
  const SHADOW: Request := Request("a", "a", SHADOW_NODE, None, None, {}, false, None, {}, {}, {}, {})

  const CALLS: seq<Call> :=
    [DoRegister(SHADOW), DoNext(false), DoComplete(0, "node", "evidence", true), DoRegister(SHADOW)]

  const QUEUED: Trial := FreshTrial("a", SHADOW)
  const RECORD: Assignment := NewAssignment(Study(DEFAULT_CONFIG, [], []), QUEUED, P3)
  const SPENT: Assignment := RECORD.(status := AssignmentStatus.Completed, nodeId := Some("node"))
  const DONE: Trial := QUEUED.(status := Eliminated, pending := None, reason := Text("evidence"))
  const AGAIN: Trial := Readmitted(DONE, SHADOW, true)

  lemma Registered()
    ensures Perform(Study(DEFAULT_CONFIG, [], []), DoRegister(SHADOW)) == Study(DEFAULT_CONFIG, [QUEUED], [])
  {
  }

  lemma OneNative(t: Trial)
    requires !t.card.paper
    ensures Order([t], false) == [0] && !PaperPending([t], false)
  {
    assert ClassOrder([t][..0], true) == [] && ClassOrder([t][..0], false) == [];
    assert ClassOrder([t], true) == [] && ClassOrder([t], false) == [0];
  }

  lemma QueuedIsSelected(s: Study, t: Trial)
    requires s.cfg == DEFAULT_CONFIG && s.trials == [t]
    requires !t.card.paper && t.status.Waiting? && t.pending == Some(Pilot3) && t.observations == []
    ensures Select(s, Order(s.trials, false), false) == Some(0) && Choice(s.cfg, t, false) == Some(P3)
    ensures !PaperPending(s.trials, false)
  {
    OneNative(t);
    assert FirstAt(s, [0], false, Pilot3) == Some(0);
  }

  lemma Offered()
    ensures Perform(Study(DEFAULT_CONFIG, [QUEUED], []), DoNext(false)) == Study(DEFAULT_CONFIG, [QUEUED], [RECORD])
  {
    hide Select, Order, PaperPending, Choice;
    QueuedIsSelected(Study(DEFAULT_CONFIG, [QUEUED], []), QUEUED);
  }

  lemma Completed()
    ensures Perform(Study(DEFAULT_CONFIG, [QUEUED], [RECORD]), CALLS[2]) == Study(DEFAULT_CONFIG, [DONE], [SPENT])
  {
    var r := CompleteEvidenceOnly(Study(DEFAULT_CONFIG, [QUEUED], [RECORD]), 0, "node", "evidence", true);
    assert r.assignments == [SPENT] && r.trials == [DONE];
  }

  lemma RegisteredAgain()
    ensures Perform(Study(DEFAULT_CONFIG, [DONE], [SPENT]), DoRegister(SHADOW))
      == Study(DEFAULT_CONFIG, [AGAIN], [SPENT])
  {
    assert [DONE][..0] == [];
    assert Find([DONE], "a") == Some(0);
  }

  lemma OfferedAgain()
    ensures Next(Study(DEFAULT_CONFIG, [AGAIN], [SPENT]), false).1 == Some(SPENT)
  {
    hide Select, Order, PaperPending, Choice;
    var s := Study(DEFAULT_CONFIG, [AGAIN], [SPENT]);
    QueuedIsSelected(s, AGAIN);
    assert [SPENT][..0] == [];
    assert FindKey(s.assignments, "a", P3) == Some(0);
  }

  lemma PerformedFour(s: Study, a: Call, b: Call, c: Call, d: Call)
    ensures Performed(s, [a, b, c, d]) == Perform(Perform(Perform(Perform(s, a), b), c), d)
  {
    var r := Perform(s, a);
    assert [a, b, c, d][1..] == [b, c, d];
    assert [b, c, d][1..] == [c, d];
    assert [c, d][1..] == [d];
    assert Performed(Perform(Perform(r, b), c), [d]) == Perform(Perform(Perform(r, b), c), d);
    assert Performed(Perform(r, b), [c, d]) == Perform(Perform(Perform(r, b), c), d);
  }

  /** From an empty study, four calls after which the consumed assignment is returned. */
  lemma ConsumedComesBack()
    ensures var s := Performed(Study(DEFAULT_CONFIG, [], []), CALLS);
      Next(s, false).1 == Some(SPENT) && SPENT.status.Completed?
  {
    Registered();
    Offered();
    Completed();
    RegisteredAgain();
    PerformedFour(Study(DEFAULT_CONFIG, [], []), CALLS[0], CALLS[1], CALLS[2], CALLS[3]);
    OfferedAgain();
  }
}
