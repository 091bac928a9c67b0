/**
  Pre-registration is documented to make an identity that next_assignment never returns.  It does not
  close what is already open for the trial, and that can be returned.
  */
module AshaReservations {
  import opened Options
  import opened AshaTypes
  import opened Promotion
  import opened AshaSpec
  import opened AshaBookkeeping
  import opened AshaCalls
  import opened AshaOffers
  import opened AshaReissue
  import opened Registration

  /** The first record that can be resumed is one of trial i. */
  ghost predicate OwnIsFirst(s: Study, confirm: bool, i: nat)
    requires i < |s.trials|
  {
    exists j: nat :: FirstResumable(s, confirm, j) && s.assignments[j].trialId == s.trials[i].card.id
  }

  lemma FirstIsUnique(s: Study, confirm: bool, j: nat, m: nat)
    requires FirstResumable(s, confirm, j) && FirstResumable(s, confirm, m)
    ensures j == m
  {
    hide Resumable;
  }

  /** A trial that needs evidence is returned exactly when the first record to be resumed is one of its own. */
  lemma ReservedReturnedExactly(s: Study, confirm: bool, i: nat)
    requires Valid(s) && i < |s.trials| && s.trials[i].status == NeedsEvidence
    ensures var r := Next(s, confirm).1;
      r.Some? && r.value.trialId == s.trials[i].card.id <==> OwnIsFirst(s, confirm, i)
  {
    hide Valid, Next, FirstResumable, NothingResumable, Yielded;
    if NothingResumable(s, confirm) {
      NothingOfReserved(s, confirm, i);
    } else {
      var j := SomeResumable(s, confirm);
      NextResumes(s, confirm, j);
      FirstInRange(s, confirm, j);
      forall m: nat | FirstResumable(s, confirm, m) ensures m == j {
        FirstIsUnique(s, confirm, j, m);
      }
    }
  }

  lemma FirstInRange(s: Study, confirm: bool, j: nat)
    requires FirstResumable(s, confirm, j)
    ensures j < |s.assignments|
  {
  }

  lemma SomeResumable(s: Study, confirm: bool) returns (j: nat)
    requires !NothingResumable(s, confirm)
    ensures FirstResumable(s, confirm, j)
  {
    hide Resumable;
    var a :| a in s.assignments && Resumable(s, a, confirm);
    var m :| 0 <= m < |s.assignments| && s.assignments[m] == a;
    j := LeastResumable(s, confirm, m);
  }

  lemma {:induction false} LeastResumable(s: Study, confirm: bool, m: nat) returns (j: nat)
    requires m < |s.assignments| && Resumable(s, s.assignments[m], confirm)
    ensures FirstResumable(s, confirm, j)
    decreases m
  {
    hide Resumable;
    if n :| 0 <= n < m && Resumable(s, s.assignments[n], confirm) {
      j := LeastResumable(s, confirm, n);
    } else {
      j := m;
    }
  }

  lemma NothingOfReserved(s: Study, confirm: bool, i: nat)
    requires Valid(s) && i < |s.trials| && s.trials[i].status == NeedsEvidence && NothingResumable(s, confirm)
    ensures Next(s, confirm).1.Some? ==> Next(s, confirm).1.value.trialId != s.trials[i].card.id
    ensures forall j: nat :: !FirstResumable(s, confirm, j)
  {
    NextServes(s, confirm);
    hide Next, Resumable, MostUrgent, AdapterWork;
    if Next(s, confirm).1.Some? {
      var a := Next(s, confirm).1.value;
      var m :| 0 <= m < |s.trials| && s.trials[m].card.id == a.trialId && Served(s, confirm, m, a.key);
      assert m != i;
      SameOwner(s, m, i);
    }
  }

  lemma SameOwner(s: Study, m: nat, i: nat)
    requires Valid(s) && m < |s.trials| && i < |s.trials| && m != i
    ensures s.trials[m].card.id != s.trials[i].card.id
  {
    FindFirst(s.trials, m);
    FindFirst(s.trials, i);
  }

  // Such a study

  const START: Study := Study(DEFAULT_CONFIG, [], [])
  const RESERVED: Trial := Merged(Reserved(QUEUED, SHADOW), SHADOW)

  lemma ReservedAfterOffer()
    ensures Perform(Study(DEFAULT_CONFIG, [QUEUED], [RECORD]), DoPreRegister(SHADOW))
      == Study(DEFAULT_CONFIG, [RESERVED], [RECORD])
  {
    assert [QUEUED][..0] == [];
    assert FindReservation([QUEUED], SHADOW) == Some(0);
  }

  lemma ReturnedThough()
    ensures Next(Study(DEFAULT_CONFIG, [RESERVED], [RECORD]), false).1 == Some(RECORD)
  {
    var s := Study(DEFAULT_CONFIG, [RESERVED], [RECORD]);
    assert !PaperPending([RESERVED], false);
    assert Yielded(s, false) == s;
    assert Recoverable(s.trials, [RECORD], false, false) == Some(RECORD);
  }

  /** From an empty study: a shadow is registered and offered, then reserved, and is returned all the same. */
  lemma ReservedIsReturned()
    ensures var s := Performed(START, [DoRegister(SHADOW), DoNext(false), DoPreRegister(SHADOW)]);
      && s.trials == [RESERVED] && RESERVED.status == NeedsEvidence && RESERVED.pending == None
      && Next(s, false).1 == Some(RECORD)
  {
    Registered();
    Offered();
    ReservedAfterOffer();
    hide Perform, Next;
    var cs := [DoRegister(SHADOW), DoNext(false), DoPreRegister(SHADOW)];
    assert cs[1..] == [DoNext(false), DoPreRegister(SHADOW)] && cs[1..][1..] == [DoPreRegister(SHADOW)];
    assert [DoPreRegister(SHADOW)][1..] == [];
    assert Performed(Study(DEFAULT_CONFIG, [QUEUED], [RECORD]), [DoPreRegister(SHADOW)])
      == Study(DEFAULT_CONFIG, [RESERVED], [RECORD]);
    assert Performed(Study(DEFAULT_CONFIG, [QUEUED], []), cs[1..]) == Study(DEFAULT_CONFIG, [RESERVED], [RECORD]);
    ReturnedThough();
  }
}
