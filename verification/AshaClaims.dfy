/**
  What claims, evidence-only completions and control failures do, in terms of the records and trials they
  touch: who is refused and why, and that nothing else changes.
  */
module AshaClaims {
  import opened Options
  import opened AshaTypes
  import opened Promotion
  import opened AshaSpec
  import opened AshaBookkeeping
  import opened AshaLadder

  /** The record at position j is the one for this trial and key. */
  predicate RecordAt(asgs: seq<Assignment>, id: string, k: Key, j: nat) {
    j < |asgs| && asgs[j].trialId == id && asgs[j].key == k
  }

  /** A run or node is really named. */
  predicate Named(o: Option<string>) {
    o != None && o != Some("")
  }

  /** The claim names another run or node than the one the running record is bound to. */
  predicate ClaimsAnother(a: Assignment, run: Option<string>, node: Option<string>) {
    || (Named(run) && a.runId != None && a.runId != run)
    || (Named(node) && a.nodeId != None && a.nodeId != node)
  }

  /** b is a claimed: running, and bound to what it was bound to first. */
  predicate BoundFirst(a: Assignment, b: Assignment, run: Option<string>, node: Option<string>) {
    b == a.(status := AssignmentStatus.Running,
            runId := if Named(a.runId) then a.runId else run,
            nodeId := if Named(a.nodeId) then a.nodeId else node)
  }

  /** An assignment nobody recorded cannot be claimed. */
  lemma UnknownIsRefused(s: Study, id: string, k: Key, run: Option<string>, node: Option<string>)
    ensures MarkRunning(s, id, k, run, node) == Err(UnknownAssignment) <==>
      forall j :: 0 <= j < |s.assignments| ==> !RecordAt(s.assignments, id, k, j)
  {
    FindKeyNone(s.assignments, id, k);
    forall j | 0 <= j < |s.assignments| ensures IsFor(s.assignments[j], id, k) <==> RecordAt(s.assignments, id, k, j) {
    }
  }

  lemma ClaimLookups(s: Study, id: string, k: Key, j: nat)
    requires Valid(s) && RecordAt(s.assignments, id, k, j)
    ensures FindKey(s.assignments, id, k) == Some(j) && Find(s.trials, id).Some?
    ensures forall i :: 0 <= i < |s.trials| ==> (s.trials[i].card.id == id <==> Find(s.trials, id) == Some(i))
  {
    FindKeyOnly(s.assignments, j);
    assert KnownAssignment(s.trials, s.assignments[j]);
    forall i | 0 <= i < |s.trials| && s.trials[i].card.id == id ensures Find(s.trials, id) == Some(i) {
      FindFirst(s.trials, i);
    }
  }

  /**
    The claim of a recorded assignment, exactly: a consumed one is refused, a running one bound to another
    run or node is refused, and any other is bound and its trial runs at its rung; nothing else changes.
    */
  lemma ClaimExactly(s: Study, id: string, k: Key, run: Option<string>, node: Option<string>, j: nat)
    requires Valid(s) && RecordAt(s.assignments, id, k, j)
    ensures var a, r := s.assignments[j], MarkRunning(s, id, k, run, node);
      if a.status == AssignmentStatus.Completed || a.status == AssignmentStatus.Failed then r == Err(AlreadyConsumed)
      else if a.status == AssignmentStatus.Running && ClaimsAnother(a, run, node) then r == Err(BoundElsewhere)
      else
        && r.Ok? && r.value.cfg == s.cfg
        && |r.value.assignments| == |s.assignments| && |r.value.trials| == |s.trials|
        && BoundFirst(a, r.value.assignments[j], run, node)
        && (forall m :: 0 <= m < |s.assignments| && m != j ==> r.value.assignments[m] == s.assignments[m])
        && (forall i :: 0 <= i < |s.trials| ==>
              r.value.trials[i] ==
              if s.trials[i].card.id == id then s.trials[i].(status := TrialStatus.Running, pending := Some(k.stage))
              else s.trials[i])
  {
    hide Valid, Find, FindKey;
    ClaimLookups(s, id, k, j);
  }

  /** Completing an evidence-only trial closes what is open for it, and the trial with the given reason. */
  lemma CompletionExactly(s: Study, i: nat, node: string, why: string, succeeded: bool)
    requires i < |s.trials|
    ensures var r := CompleteEvidenceOnly(s, i, node, why, succeeded);
      && r.cfg == s.cfg && |r.trials| == |s.trials| && |r.assignments| == |s.assignments|
      && (forall m :: 0 <= m < |s.trials| ==>
            r.trials[m] ==
            if m == i then s.trials[i].(status := if succeeded then Eliminated else TrialStatus.Failed,
                                        pending := None, reason := Text(why))
            else s.trials[m])
      && (forall j :: 0 <= j < |s.assignments| ==>
            var a := s.assignments[j];
            r.assignments[j] ==
            if a.trialId == s.trials[i].card.id && (a.status == Issued || a.status == AssignmentStatus.Running) then
              a.(status := if succeeded then AssignmentStatus.Completed else AssignmentStatus.Failed,
                 nodeId := if Named(a.nodeId) then a.nodeId else Some(node))
            else a)
  {
  }

  /** A failed control parks exactly the trials matched with it, whatever they were doing, and says why. */
  lemma ControlFailureExactly(s: Study, protocol: string, cause: string)
    ensures var r := FailMatchedControl(s, protocol, cause);
      && r.cfg == s.cfg && r.assignments == s.assignments && |r.trials| == |s.trials|
      && forall i :: 0 <= i < |s.trials| ==>
        var t, u := s.trials[i], r.trials[i];
        if t.card.plan != None && t.card.plan.value.protocol == protocol then
          && u.status == NeedsEvidence && u.pending == None && u.reason == ControlFailed(cause)
          && u.observations == t.observations && u.deferredForPaper == t.deferredForPaper
          && u.card == t.card.(blockers := t.card.blockers + {"matched_control_failed:" + cause})
        else u == t
  {
  }
}
