/**
  Arbitrary, undisciplined sequences of public calls: the books still balance and identities hold.
  Also the link from registration to the enrolment step of disciplined runs.
  */
module AshaCalls {
  import opened Options
  import opened AshaTypes
  import opened Promotion
  import opened AshaSpec
  import opened AshaBookkeeping
  import opened AshaLadder
  import opened AshaRuns
  import opened Registration

  datatype Call =
    | DoRegister(q: Request)
    | DoPreRegister(q: Request)
    | DoReport(i: nat, o: Observation)
    | DoNext(confirm: bool)
    | DoMark(id: string, key: Key, run: Option<string>, node: Option<string>)
    | DoComplete(i: nat, nodeId: string, why: string, succeeded: bool)
    | DoFailControl(protocol: string, cause: string)

  /** The study after a call; a refused call changes nothing. */
  function Perform(s: Study, c: Call): Study {
    match c
    case DoRegister(q) => if Register(s, q).Ok? then Register(s, q).value.0 else s
    case DoPreRegister(q) => if PreRegister(s, q).Ok? then PreRegister(s, q).value.0 else s
    case DoReport(i, o) => if i < |s.trials| then Report(s, i, o) else s
    case DoNext(confirm) => Next(s, confirm).0
    case DoMark(id, k, run, node) =>
      if MarkRunning(s, id, k, run, node).Ok? then MarkRunning(s, id, k, run, node).value else s
    case DoComplete(i, node, why, ok) => if i < |s.trials| then CompleteEvidenceOnly(s, i, node, why, ok) else s
    case DoFailControl(protocol, cause) => FailMatchedControl(s, protocol, cause)
  }

  function Performed(s: Study, cs: seq<Call>): Study
    decreases |cs|
  {
    if cs == [] then s else Performed(Perform(s, cs[0]), cs[1..])
  }

  /** mark_running is used on an assignment that was put aside. */
  predicate RevivesDeferred(s: Study, c: Call) {
    c.DoMark? && Slot(s.assignments, c.id, c.key) == Some(Deferred)
  }

  predicate NeverRevives(s: Study, cs: seq<Call>)
    decreases |cs|
  {
    cs == [] || (!RevivesDeferred(s, cs[0]) && NeverRevives(Perform(s, cs[0]), cs[1..]))
  }

  /** A registration, refused or not, keeps the books and leaves the assignments alone. */
  lemma RegistrationKeepsBooks(s: Study, c: Call)
    requires Valid(s) && (c.DoRegister? || c.DoPreRegister?)
    ensures Valid(Perform(s, c)) && Perform(s, c).assignments == s.assignments
  {
    if c.DoRegister? && Register(s, c.q).Ok? {
      RegisterKeepsValid(s, c.q);
    }
    if c.DoPreRegister? && PreRegister(s, c.q).Ok? {
      PreRegisterKeepsValid(s, c.q);
    }
  }

  lemma CallKeepsValid(s: Study, c: Call)
    requires Valid(s)
    ensures Valid(Perform(s, c))
  {
    hide Register, PreRegister, Report, Next, MarkRunning, CompleteEvidenceOnly, FailMatchedControl;
    match c
    case DoRegister(_) => RegistrationKeepsBooks(s, c);
    case DoPreRegister(_) => RegistrationKeepsBooks(s, c);
    case DoReport(i, o) => if i < |s.trials| { ReportKeepsValid(s, i, o); }
    case DoNext(confirm) => NextKeepsValid(s, confirm);
    case DoMark(id, k, run, node) =>
      if MarkRunning(s, id, k, run, node).Ok? { MarkKeepsValid(s, id, k, run, node); }
    case DoComplete(i, node, why, ok) => if i < |s.trials| { CompleteKeepsValid(s, i, node, why, ok); }
    case DoFailControl(protocol, cause) => FailControlKeepsValid(s, protocol, cause);
  }

  lemma CallKeepsSingle(s: Study, c: Call)
    requires Valid(s) && SingleOutstanding(s.assignments) && !RevivesDeferred(s, c)
    ensures SingleOutstanding(Perform(s, c).assignments)
  {
    hide Register, PreRegister, Report, Next, CompleteEvidenceOnly;
    match c
    case DoRegister(_) => RegistrationKeepsBooks(s, c);
    case DoPreRegister(_) => RegistrationKeepsBooks(s, c);
    case DoReport(i, o) => if i < |s.trials| { ReportKeepsValid(s, i, o); }
    case DoNext(confirm) => NextKeepsValid(s, confirm);
    case DoMark(id, k, run, node) =>
      if MarkRunning(s, id, k, run, node).Ok? { MarkKeepsValid(s, id, k, run, node); }
    case DoComplete(i, node, why, ok) => if i < |s.trials| { CompleteKeepsValid(s, i, node, why, ok); }
    case DoFailControl(_, _) =>
  }

  lemma ReportKeepsCards(s: Study, i: nat, o: Observation)
    requires i < |s.trials|
    ensures SameCards(s.trials, Report(s, i, o).trials)
  {
    SettleFits(s.cfg, Recorded(s.trials[i], o), o);
    var settled := s.trials[i := Settle(s.cfg, Recorded(s.trials[i], o), o)];
    forall j | 0 <= j < |s.trials| ensures Report(s, i, o).trials[j].card == s.trials[j].card {
      RefreshAt(s.cfg, settled, j);
    }
  }

  lemma NextKeepsCards(s: Study, confirm: bool)
    ensures SameCards(s.trials, Next(s, confirm).0.trials)
  {
    assert Next(s, confirm).0.trials == Yielded(s, confirm).trials;
  }

  lemma MarkKeepsCards(s: Study, id: string, k: Key, run: Option<string>, node: Option<string>)
    requires MarkRunning(s, id, k, run, node).Ok?
    ensures SameCards(s.trials, MarkRunning(s, id, k, run, node).value.trials)
  {
  }

  lemma RegistrationIdentity(s: Study, c: Call)
    requires c.DoRegister? || c.DoPreRegister?
    ensures KeepsIdentity(s.trials, Perform(s, c).trials)
  {
    if c.DoRegister? && Register(s, c.q).Ok? {
      RegisterKeepsIdentity(s, c.q);
    }
    if c.DoPreRegister? && PreRegister(s, c.q).Ok? {
      PreRegisterKeepsIdentity(s, c.q);
    }
  }

  lemma CallKeepsIdentity(s: Study, c: Call)
    ensures KeepsIdentity(s.trials, Perform(s, c).trials)
  {
    hide Register, PreRegister, Report, Next, MarkRunning;
    match c
    case DoRegister(_) => RegistrationIdentity(s, c);
    case DoPreRegister(_) => RegistrationIdentity(s, c);
    case DoReport(i, o) => if i < |s.trials| { ReportKeepsCards(s, i, o); }
    case DoNext(confirm) => NextKeepsCards(s, confirm);
    case DoMark(id, k, run, node) =>
      if MarkRunning(s, id, k, run, node).Ok? { MarkKeepsCards(s, id, k, run, node); }
    case DoComplete(_, _, _, _) =>
    case DoFailControl(_, _) =>
  }

  lemma IdentityTransitive(xs: seq<Trial>, ys: seq<Trial>, zs: seq<Trial>)
    requires KeepsIdentity(xs, ys) && KeepsIdentity(ys, zs)
    ensures KeepsIdentity(xs, zs)
  {
    forall i | 0 <= i < |xs| ensures SameIdentity(xs[i].card, zs[i].card) {
      assert SameIdentity(xs[i].card, ys[i].card) && SameIdentity(ys[i].card, zs[i].card);
    }
  }

  /**
    Whatever is called in whatever order, from a valid study: ids and assignment records stay unique,
    statuses fit their rungs, running trials are claimed, no key is observed twice; trials keep their
    identity, and an eligible trial its fingerprint and readiness.
    */
  lemma {:induction false} AnyCallsKeepTheBooks(s: Study, cs: seq<Call>)
    requires Valid(s)
    ensures Valid(Performed(s, cs))
    ensures KeepsIdentity(s.trials, Performed(s, cs).trials)
    decreases |cs|
  {
    if cs != [] {
      CallKeepsValid(s, cs[0]);
      CallKeepsIdentity(s, cs[0]);
      AnyCallsKeepTheBooks(Perform(s, cs[0]), cs[1..]);
      IdentityTransitive(s.trials, Perform(s, cs[0]).trials, Performed(s, cs).trials);
    }
  }

  /**
    At most one pilot and one candidate_full allocation is ever being worked on, as long as
    mark_running is not used to revive a deferred one.
    */
  lemma {:induction false} AnyCallsKeepSingle(s: Study, cs: seq<Call>)
    requires Valid(s) && SingleOutstanding(s.assignments) && NeverRevives(s, cs)
    ensures SingleOutstanding(Performed(s, cs).assignments)
    decreases |cs|
  {
    if cs != [] {
      CallKeepsValid(s, cs[0]);
      CallKeepsSingle(s, cs[0]);
      AnyCallsKeepSingle(Perform(s, cs[0]), cs[1..]);
    }
  }

  /** Some other allocation of the same kind is being worked on. */
  ghost predicate KindIsBusy(s: Study, id: string, k: Key) {
    exists j :: 0 <= j < |s.assignments| && !IsFor(s.assignments[j], id, k)
      && Outstanding(s.assignments[j].status) && IsFull(s.assignments[j].key.stage) == IsFull(k.stage)
  }

  /** Reviving a deferred allocation breaks the rule exactly when its kind is busy. */
  lemma RevivalBreaksExactly(s: Study, id: string, k: Key, run: Option<string>, node: Option<string>)
    requires Valid(s) && SingleOutstanding(s.assignments)
    requires RevivesDeferred(s, DoMark(id, k, run, node)) && MarkRunning(s, id, k, run, node).Ok?
    ensures SingleOutstanding(MarkRunning(s, id, k, run, node).value.assignments) <==> !KindIsBusy(s, id, k)
  {
    hide TrialOk, KnownAssignment, UniqueIds;
    var m := FindKey(s.assignments, id, k).value;
    var asgs := MarkRunning(s, id, k, run, node).value.assignments;
    if KindIsBusy(s, id, k) {
      var j :| 0 <= j < |s.assignments| && !IsFor(s.assignments[j], id, k)
        && Outstanding(s.assignments[j].status) && IsFull(s.assignments[j].key.stage) == IsFull(k.stage);
      assert asgs[j] == s.assignments[j] && Outstanding(asgs[m].status) && asgs[m].key == k;
      if j < m {
        assert IsFull(asgs[j].key.stage) == IsFull(asgs[m].key.stage);
      } else {
        assert IsFull(asgs[m].key.stage) == IsFull(asgs[j].key.stage);
      }
    } else {
      forall i, j | 0 <= i < j < |asgs| && Outstanding(asgs[i].status) && Outstanding(asgs[j].status)
        ensures IsFull(asgs[i].key.stage) != IsFull(asgs[j].key.stage)
      {
        var other := if i == m then j else i;
        if i == m || j == m {
          assert !IsFor(s.assignments[i], s.assignments[j].trialId, s.assignments[j].key);
          assert !IsFor(s.assignments[other], id, k);
        }
      }
    }
  }

  /** A registration that creates a trial is the enrolment step of a disciplined run. */
  lemma RegistrationEnrolls(s: Study, q: Request)
    requires Register(s, q).Ok? && Register(s, q).value.1 == |s.trials|
    ensures var t := Register(s, q).value.0.trials[|s.trials|];
      Newcomer(s, t) && Register(s, q).value.0 == Apply(s, Enroll(t))
  {
    var t := FreshTrial(TargetId(s, q), q);
    assert Register(s, q).value.0.trials == s.trials + [Broken(s.trials + [t], t)];
  }

  // Fingerprints

  /** The one kind of call that gives a fingerprint to a second trial. */
  predicate CollidingCall(s: Study, c: Call) {
    c.DoRegister? && Register(s, c.q).Ok? && Collides(s, c.q)
  }

  predicate NeverCollides(s: Study, cs: seq<Call>)
    decreases |cs|
  {
    cs == [] || (!CollidingCall(s, cs[0]) && NeverCollides(Perform(s, cs[0]), cs[1..]))
  }

  ghost predicate SameFingerprints(xs: seq<Trial>, ys: seq<Trial>) {
    |xs| == |ys| && forall i :: 0 <= i < |xs| ==> ys[i].card.fingerprint == xs[i].card.fingerprint
  }

  lemma SameFingerprintsUnique(xs: seq<Trial>, ys: seq<Trial>)
    requires SameFingerprints(xs, ys)
    ensures UniqueFingerprints(xs) <==> UniqueFingerprints(ys)
  {
    forall i, j | 0 <= i < j < |xs|
      ensures xs[i].card.fingerprint == xs[j].card.fingerprint <==> ys[i].card.fingerprint == ys[j].card.fingerprint
    {
    }
  }

  /** A reservation finds whoever holds its fingerprint, so it never makes a second holder. */
  lemma PreRegisterKeepsUnique(s: Study, q: Request)
    requires UniqueFingerprints(s.trials) && PreRegister(s, q).Ok?
    ensures UniqueFingerprints(PreRegister(s, q).value.0.trials)
  {
    match FindReservation(s.trials, q)
    case Some(i) => SameFingerprintsUnique(s.trials, PreRegister(s, q).value.0.trials);
    case None =>
      forall i | 0 <= i < |s.trials| ensures s.trials[i].card.fingerprint != q.node.fingerprint {
        assert !MatchesReservation(s.trials[i], q);
      }
      AppendedFingerprint(s.trials, Reservation(q));
  }

  /** All other calls leave every fingerprint alone. */
  lemma CallKeepsFingerprints(s: Study, c: Call)
    requires !c.DoRegister? && !c.DoPreRegister?
    ensures SameFingerprints(s.trials, Perform(s, c).trials)
  {
    hide Report, Next, MarkRunning;
    match c
    case DoReport(i, o) => if i < |s.trials| { ReportKeepsCards(s, i, o); }
    case DoNext(confirm) => NextKeepsCards(s, confirm);
    case DoMark(id, k, run, node) =>
      if MarkRunning(s, id, k, run, node).Ok? { MarkKeepsCards(s, id, k, run, node); }
    case DoComplete(_, _, _, _) =>
    case DoFailControl(_, _) =>
  }

  /** A call keeps fingerprints unique if and only if it is not a colliding registration. */
  lemma CallKeepsUniqueExactly(s: Study, c: Call)
    requires UniqueFingerprints(s.trials)
    ensures UniqueFingerprints(Perform(s, c).trials) <==> !CollidingCall(s, c)
  {
    hide Register, PreRegister, Collides, UniqueFingerprints, Report, Next, MarkRunning;
    if c.DoRegister? {
      if Register(s, c.q).Ok? {
        FingerprintsStayUniqueExactly(s, c.q);
      }
    } else if c.DoPreRegister? {
      if PreRegister(s, c.q).Ok? {
        PreRegisterKeepsUnique(s, c.q);
      }
    } else {
      CallKeepsFingerprints(s, c);
      SameFingerprintsUnique(s.trials, Perform(s, c).trials);
    }
  }

  /** Over any calls, one fingerprint names one trial as long as no registration collides. */
  lemma {:induction false} AnyCallsKeepFingerprints(s: Study, cs: seq<Call>)
    requires UniqueFingerprints(s.trials) && NeverCollides(s, cs)
    ensures UniqueFingerprints(Performed(s, cs).trials)
    decreases |cs|
  {
    hide Perform, CollidingCall, UniqueFingerprints;
    if cs != [] {
      CallKeepsUniqueExactly(s, cs[0]);
      AnyCallsKeepFingerprints(Perform(s, cs[0]), cs[1..]);
    }
  }
}
