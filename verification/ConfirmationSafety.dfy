/** What holds over every sequence of executes, resumes, failures and deaths. */
module ConfirmationSafety {
  import opened Options
  import opened ConfirmationSpec

  // The gate

  /** Denials are exactly the reasons for which the gate stays closed. */
  lemma GateExactly(r: Request, a: Option<Approval>)
    ensures Allows(r, a) <==> forall d: Denial :: !Applies(d, r, a)
  {
    if !Allows(r, a) {
      var d := if r.state.Rejected? then RequestRejected else if r.state.Spent? then AlreadyConsumed
        else if a.None? then ApprovalRequired
        else if a.value.requestId != r.requestId then RequestMismatch
        else if a.value.confirmationId != r.confirmationId then StaleConfirmation
        else if a.value.winnerId != r.winnerId then StaleWinner
        else if !a.value.explicit then NotExplicit
        else BudgetBelowEstimate;
      assert Applies(d, r, a);
    }
  }

  // Completed runs are final

  /** The run this key names is persisted as completed. */
  predicate Done(runs: seq<ConfirmationRun>, k: RunKey) {
    FindRun(runs, k).Some? && runs[FindRun(runs, k).value].status.Completed?
  }

  /** Keys stay in place and completed runs stay as they are, metrics included. */
  ghost predicate Extends(xs: seq<ConfirmationRun>, ys: seq<ConfirmationRun>) {
    && |xs| == |ys|
    && (forall i :: 0 <= i < |xs| ==> xs[i].key == ys[i].key)
    && (forall i :: 0 <= i < |xs| && xs[i].status.Completed? ==> ys[i] == xs[i])
  }

  lemma SameFind(xs: seq<ConfirmationRun>, ys: seq<ConfirmationRun>, k: RunKey)
    requires Extends(xs, ys)
    ensures FindRun(xs, k) == FindRun(ys, k)
  {
    if FindRun(xs, k).Some? && FindRun(ys, k).Some? {
      var i, j := FindRun(xs, k).value, FindRun(ys, k).value;
      assert i == j;
    }
  }

  lemma DoneStays(xs: seq<ConfirmationRun>, ys: seq<ConfirmationRun>, k: RunKey)
    requires Extends(xs, ys) && Done(xs, k)
    ensures Done(ys, k)
  {
    SameFind(xs, ys, k);
  }

  /** Claiming a run touches that run alone, and only if it is not completed. */
  lemma ClaimExtends(disk: seq<ConfirmationRun>, k: RunKey)
    requires MarkRunning(disk, k).Ok?
    ensures var claimed, i := MarkRunning(disk, k).value, FindRun(disk, k);
      && i.Some? && FindRun(claimed, k) == i && !disk[i.value].status.Completed?
      && Extends(disk, claimed) && claimed == disk[i.value := claimed[i.value]] && claimed[i.value].status.Running?
  {
    assert Extends(disk, MarkRunning(disk, k).value);
    SameFind(disk, MarkRunning(disk, k).value, k);
  }

  /** Closing a run that is not completed keeps the completed ones; the key finds the same run. */
  lemma CloseExtends(disk: seq<ConfirmationRun>, k: RunKey, run: ConfirmationRun)
    requires FindRun(disk, k).Some? && !disk[FindRun(disk, k).value].status.Completed? && run.key == k
    ensures var r := disk[FindRun(disk, k).value := run];
      Extends(disk, r) && FindRun(r, k) == FindRun(disk, k) && (Done(r, k) <==> run.status.Completed?)
  {
    SameFind(disk, disk[FindRun(disk, k).value := run], k);
  }

  /** An attempt never touches completed runs and only calls the executor for a run that is not. */
  lemma AttemptExtends(disk: seq<ConfirmationRun>, k: RunKey, fate: Fate)
    ensures var r := Attempt(disk, k, fate);
      && Extends(disk, r.disk)
      && (r.calls == [] || (r.calls == [k] && !Done(disk, k)))
      && (r.stop.None? ==> r.calls == [k] && Done(r.disk, k))
  {
    hide FindRun, MarkRunning;
    if MarkRunning(disk, k).Ok? && !fate.DiesBeforeClaim? {
      ClaimExtends(disk, k);
      var i := FindRun(disk, k).value;
      CloseExtends(disk, k, Attempt(disk, k, fate).disk[i]);
    }
  }

  lemma ExtendsTransitive(xs: seq<ConfirmationRun>, ys: seq<ConfirmationRun>, zs: seq<ConfirmationRun>)
    requires Extends(xs, ys) && Extends(ys, zs)
    ensures Extends(xs, zs)
  {
    forall i | 0 <= i < |xs| && xs[i].status.Completed? ensures zs[i] == xs[i] {
      assert ys[i] == xs[i];
    }
  }

  lemma {:induction false} RunAllExtends(disk: seq<ConfirmationRun>, keys: seq<RunKey>, fates: seq<Fate>)
    ensures var r := RunAll(disk, keys, fates);
      && Extends(disk, r.disk)
      && (forall k <- r.calls :: !Done(disk, k))
      && (r.stop.None? ==> r.calls == keys && forall k <- keys :: Done(r.disk, k))
    decreases |keys|
  {
    hide Attempt;
    if keys != [] {
      var a := Attempt(disk, keys[0], FateAt(fates, 0));
      AttemptExtends(disk, keys[0], FateAt(fates, 0));
      if a.stop.None? {
        var later := Later(fates);
        var rest := RunAll(a.disk, keys[1..], later);
        RunAllExtends(a.disk, keys[1..], later);
        ExtendsTransitive(disk, a.disk, rest.disk);
        forall k | k in a.calls + rest.calls ensures !Done(disk, k) {
          if k in rest.calls && Done(disk, k) {
            DoneStays(disk, a.disk, k);
          }
        }
        if rest.stop.None? {
          DoneStays(a.disk, rest.disk, keys[0]);
        }
      }
    }
  }

  lemma ExecuteExtends(w: World, v: Invocation)
    ensures var e := Execute(w, v);
      && Extends(w.disk, e.world.disk)
      && (forall k <- e.calls :: !Done(w.disk, k))
  {
    RunAllExtends(w.disk, PlanFor(w.disk).execute, v.fates);
  }

  /**
    Over any sequence of invocations, with failures and process deaths anywhere, a run that is
    persisted as completed keeps its record for good and is never executed again.
    */
  lemma {:induction false} CompletedRunsAreFinal(w: World, vs: seq<Invocation>)
    ensures Extends(w.disk, Play(w, vs).0.disk)
    ensures forall k <- Play(w, vs).1 :: !Done(w.disk, k)
    decreases |vs|
  {
    if vs != [] {
      var e := Execute(w, vs[0]);
      ExecuteExtends(w, vs[0]);
      CompletedRunsAreFinal(e.world, vs[1..]);
      ExtendsTransitive(w.disk, e.world.disk, Play(w, vs).0.disk);
      forall k | k in Play(w, vs).1 ensures !Done(w.disk, k) {
        if Done(w.disk, k) {
          DoneStays(w.disk, e.world.disk, k);
        }
      }
    }
  }

  /** The executor is never called unless the gate allows the request as it stands. */
  lemma NoCallWithoutApproval(w: World, v: Invocation)
    ensures Execute(w, v).calls != [] || Execute(w, v).world.disk != w.disk ==> Allows(w.request, v.approval)
  {
  }

  /** However often it is tried, approvals that are missing or bound to another request do nothing at all. */
  lemma {:induction false} ForeignApprovalsDoNothing(w: World, vs: seq<Invocation>)
    requires forall v <- vs :: v.approval.None? || !Binds(w.request, v.approval.value)
    ensures Play(w, vs) == (w, [])
    decreases |vs|
  {
    if vs != [] {
      assert Execute(w, vs[0]) == Effect(w, [], Denied);
      ForeignApprovalsDoNothing(w, vs[1..]);
      assert [] + Play(w, vs[1..]).1 == [];
    }
  }

  // What a normal return means

  ghost predicate AllCompleted(runs: seq<ConfirmationRun>) {
    forall i :: 0 <= i < |runs| ==> runs[i].status.Completed?
  }

  lemma {:induction false} NothingToExecute(runs: seq<ConfirmationRun>)
    ensures KeysToExecute(runs) == [] <==> AllCompleted(runs)
  {
    if runs != [] {
      var n := |runs| - 1;
      NothingToExecute(runs[..n]);
      if KeysToExecute(runs) == [] {
        forall i | 0 <= i < |runs| ensures runs[i].status.Completed? {
          assert i < n ==> runs[..n][i] == runs[i];
        }
      }
    }
  }

  /** Every run is either to be executed or skipped as completed. */
  lemma PlanCoversMatrix(runs: seq<ConfirmationRun>)
    ensures var p := PlanFor(runs);
      && multiset(p.execute) + multiset(p.skipCompleted) == multiset(Keys(runs))
      && multiset(p.pending) + multiset(p.retryFailed) + multiset(p.interrupted) == multiset(p.execute)
  {
    ExecutedOrSkipped(runs);
    ExecutedByStatus(runs);
  }

  lemma {:induction false} ExecutedOrSkipped(runs: seq<ConfirmationRun>)
    ensures multiset(KeysToExecute(runs)) + multiset(KeysWith(runs, Completed)) == multiset(Keys(runs))
  {
    if runs != [] {
      ExecutedOrSkipped(runs[..|runs| - 1]);
    }
  }

  lemma {:induction false} ExecutedByStatus(runs: seq<ConfirmationRun>)
    ensures multiset(KeysWith(runs, Pending)) + multiset(KeysWith(runs, Failed)) + multiset(KeysWith(runs, Running))
      == multiset(KeysToExecute(runs))
  {
    if runs != [] {
      ExecutedByStatus(runs[..|runs| - 1]);
    }
  }

  /**
    A normal return leaves every run completed, executed and skipped keys together cover the matrix
    exactly once, every executed key was executed in this invocation and in plan order, and the
    approval is spent.
    */
  lemma FinishedMeansComplete(w: World, v: Invocation)
    requires Execute(w, v).outcome.Finished?
    ensures var e := Execute(w, v);
      && AllCompleted(e.world.disk) && e.world.disk != []
      && multiset(e.outcome.executed) + multiset(e.outcome.skipped) == multiset(Keys(w.disk))
      && e.calls == e.outcome.executed
      && e.world.request == w.request.(state := Spent)
  {
    FinishedPlan(w, v);
    RunAllExtends(w.disk, PlanFor(w.disk).execute, v.fates);
    NothingToExecute(Execute(w, v).world.disk);
    PlanCoversMatrix(w.disk);
  }

  /** A normal return ran the whole plan and found nothing left to do. */
  lemma FinishedPlan(w: World, v: Invocation)
    requires Execute(w, v).outcome.Finished?
    ensures var e, p := Execute(w, v), RunAll(w.disk, PlanFor(w.disk).execute, v.fates);
      && p.stop.None? && e.world.disk == p.disk && e.calls == p.calls
      && PlanFor(p.disk).ReadyForStatistics()
      && e.outcome == Finished(PlanFor(w.disk).execute, PlanFor(w.disk).skipCompleted)
      && e.world.request == w.request.(state := Spent)
  {
  }

  /** Once spent, a request never executes anything again, whatever approval is presented. */
  lemma {:induction false} SpentForever(w: World, vs: seq<Invocation>)
    requires w.request.state.Spent?
    ensures Play(w, vs) == (w, [])
    ensures vs != [] ==> Execute(w, vs[0]).outcome == Denied
    decreases |vs|
  {
    if vs != [] {
      SpentForever(w, vs[1..]);
      var rest := Play(w, vs[1..]);
      assert Execute(w, vs[0]) == Effect(w, [], Denied);
      assert [] + rest.1 == [];
    }
  }

  /** Nothing but a normal return spends the approval, so an interrupted matrix can be resumed. */
  lemma OnlyFinishingSpends(w: World, v: Invocation)
    requires !w.request.state.Spent?
    ensures Execute(w, v).world.request.state.Spent? <==> Execute(w, v).outcome.Finished?
    ensures !Execute(w, v).outcome.Finished? && Allows(w.request, v.approval) ==>
      Allows(Execute(w, v).world.request, v.approval)
  {
  }

  /** Over any sequence of invocations a request is spent only together with a complete matrix. */
  lemma {:induction false} SpentMeansComplete(w: World, vs: seq<Invocation>)
    requires !w.request.state.Spent? && Play(w, vs).0.request.state.Spent?
    ensures AllCompleted(Play(w, vs).0.disk) && Play(w, vs).0.disk != []
    decreases |vs|
  {
    var e := Execute(w, vs[0]);
    OnlyFinishingSpends(w, vs[0]);
    if e.world.request.state.Spent? {
      FinishedMeansComplete(w, vs[0]);
      SpentForever(e.world, vs[1..]);
    } else {
      SpentMeansComplete(e.world, vs[1..]);
    }
  }

  // When an invocation finishes

  /** No open run repeats the key of an earlier one; a key always finds its first run only. */
  ghost predicate OpenRunsAreFirst(runs: seq<ConfirmationRun>) {
    forall i, j :: 0 <= i < j < |runs| && !runs[j].status.Completed? ==> runs[i].key != runs[j].key
  }

  lemma AttemptSparesRepeats(disk: seq<ConfirmationRun>, k: RunKey, fate: Fate, i: nat, j: nat)
    requires i < j < |disk| && disk[i].key == disk[j].key
    ensures Attempt(disk, k, fate).disk[j] == disk[j]
  {
    var claimed := MarkRunning(disk, k);
    if claimed.Ok? {
      assert Extends(disk, claimed.value);
      SameFind(disk, claimed.value, k);
    }
  }

  /** A run that repeats an earlier key is never touched. */
  lemma {:induction false} RunAllSparesRepeats(disk: seq<ConfirmationRun>, keys: seq<RunKey>, fates: seq<Fate>,
                                               i: nat, j: nat)
    requires i < j < |disk| && disk[i].key == disk[j].key
    ensures RunAll(disk, keys, fates).disk[j] == disk[j]
    decreases |keys|
  {
    if keys != [] {
      var a := Attempt(disk, keys[0], FateAt(fates, 0));
      AttemptSparesRepeats(disk, keys[0], FateAt(fates, 0), i, j);
      AttemptExtends(disk, keys[0], FateAt(fates, 0));
      RunAllSparesRepeats(a.disk, keys[1..], Later(fates), i, j);
    }
  }

  predicate Succeeds(f: Fate) {
    f.Returns? && PRIMARY_METRIC in f.metrics
  }

  lemma AttemptSucceedsExactly(disk: seq<ConfirmationRun>, k: RunKey, fate: Fate)
    requires FindRun(disk, k).Some? && !Done(disk, k)
    ensures Attempt(disk, k, fate).stop.None? <==> Succeeds(fate)
    ensures forall j :: 0 <= j < |disk| && disk[j].key != k ==> Attempt(disk, k, fate).disk[j] == disk[j]
  {
    var claimed := MarkRunning(disk, k).value;
    var i := FindRun(disk, k).value;
    assert FindRun(claimed, k) == Some(i) by {
      assert claimed[i].key == k;
      assert forall j :: 0 <= j < i ==> claimed[j].key == disk[j].key;
    }
  }

  /** Distinct open runs are executed one after the other as long as each succeeds. */
  lemma {:induction false} RunAllSucceedsExactly(disk: seq<ConfirmationRun>, keys: seq<RunKey>, fates: seq<Fate>)
    requires forall i, j :: 0 <= i < j < |keys| ==> keys[i] != keys[j]
    requires forall k <- keys :: FindRun(disk, k).Some? && !Done(disk, k)
    ensures RunAll(disk, keys, fates).stop.None? <==> forall n :: 0 <= n < |keys| ==> Succeeds(FateAt(fates, n))
    decreases |keys|
  {
    if keys != [] {
      var a := Attempt(disk, keys[0], FateAt(fates, 0));
      AttemptSucceedsExactly(disk, keys[0], FateAt(fates, 0));
      AttemptExtends(disk, keys[0], FateAt(fates, 0));
      var later := Later(fates);
      assert forall n :: 0 <= n < |keys| - 1 ==> FateAt(later, n) == FateAt(fates, n + 1);
      if a.stop.None? {
        forall k | k in keys[1..] ensures FindRun(a.disk, k).Some? && !Done(a.disk, k) {
          SameFind(disk, a.disk, k);
          assert k in keys && k != keys[0];
        }
        RunAllSucceedsExactly(a.disk, keys[1..], later);
        if forall n :: 0 <= n < |keys| - 1 ==> Succeeds(FateAt(later, n)) {
          forall n | 0 <= n < |keys| ensures Succeeds(FateAt(fates, n)) {
            assert n > 0 ==> FateAt(fates, n) == FateAt(later, n - 1);
          }
        }
      }
    }
  }

  predicate IsOpen(run: ConfirmationRun, k: RunKey) {
    run.key == k && !run.status.Completed?
  }

  ghost predicate HasOpen(runs: seq<ConfirmationRun>, k: RunKey) {
    exists i :: 0 <= i < |runs| && IsOpen(runs[i], k)
  }

  lemma {:induction false} OpenKeys(runs: seq<ConfirmationRun>)
    requires OpenRunsAreFirst(runs)
    ensures forall k <- KeysToExecute(runs) :: HasOpen(runs, k)
    ensures forall i, j :: 0 <= i < j < |KeysToExecute(runs)| ==> KeysToExecute(runs)[i] != KeysToExecute(runs)[j]
  {
    if runs != [] {
      var n := |runs| - 1;
      OpenKeys(runs[..n]);
      var front := KeysToExecute(runs[..n]);
      forall a | 0 <= a < |front|
        ensures HasOpen(runs, front[a]) && (runs[n].status.Completed? || front[a] != runs[n].key)
      {
        assert front[a] in front;
        var i :| 0 <= i < n && IsOpen(runs[..n][i], front[a]);
        assert IsOpen(runs[i], front[a]);
      }
      assert !runs[n].status.Completed? ==> IsOpen(runs[n], runs[n].key);
    }
  }

  lemma OpenIsNotDone(runs: seq<ConfirmationRun>, k: RunKey)
    requires OpenRunsAreFirst(runs) && HasOpen(runs, k)
    ensures FindRun(runs, k).Some? && !Done(runs, k)
  {
    var i :| 0 <= i < |runs| && IsOpen(runs[i], k);
    assert FindRun(runs, k) == Some(i) by {
      var j := FindRun(runs, k).value;
      assert j <= i;
    }
  }

  lemma SoundMatrixFinishes(w: World, v: Invocation)
    requires w.disk != [] && OpenRunsAreFirst(w.disk)
    ensures Execute(w, v).outcome.Finished? <==>
      && Allows(w.request, v.approval)
      && (forall n :: 0 <= n < |KeysToExecute(w.disk)| ==> Succeeds(FateAt(v.fates, n)))
      && !v.diesAtEnd
  {
    var keys := KeysToExecute(w.disk);
    OpenKeys(w.disk);
    forall k | k in keys ensures FindRun(w.disk, k).Some? && !Done(w.disk, k) {
      OpenIsNotDone(w.disk, k);
    }
    RunAllSucceedsExactly(w.disk, keys, v.fates);
    RunAllExtends(w.disk, keys, v.fates);
    var p := RunAll(w.disk, keys, v.fates);
    if p.stop.None? {
      AllDoneIsReady(w.disk, p.disk);
    }
  }

  /**
    An invocation returns normally if and only if there is a matrix and none of its open runs repeats
    an earlier key, the gate allows the request, every open run succeeds, and the process survives.
    */
  lemma FinishesExactly(w: World, v: Invocation)
    ensures Execute(w, v).outcome.Finished? <==>
      && w.disk != [] && OpenRunsAreFirst(w.disk)
      && Allows(w.request, v.approval)
      && (forall n :: 0 <= n < |KeysToExecute(w.disk)| ==> Succeeds(FateAt(v.fates, n)))
      && !v.diesAtEnd
  {
    if Execute(w, v).outcome.Finished? {
      FinishedMeansComplete(w, v);
      ExecuteExtends(w, v);
      forall i, j | 0 <= i < j < |w.disk| && !w.disk[j].status.Completed? ensures w.disk[i].key != w.disk[j].key {
        if w.disk[i].key == w.disk[j].key {
          RunAllSparesRepeats(w.disk, KeysToExecute(w.disk), v.fates, i, j);
        }
      }
    }
    if w.disk != [] && OpenRunsAreFirst(w.disk) {
      SoundMatrixFinishes(w, v);
    }
  }

  lemma {:induction false} CompletedKeysNonempty(runs: seq<ConfirmationRun>)
    requires AllCompleted(runs) && runs != []
    ensures KeysWith(runs, Completed) != []
  {
    if |runs| > 1 {
      CompletedKeysNonempty(runs[..|runs| - 1]);
    }
  }

  lemma {:induction false} OpenIsListed(runs: seq<ConfirmationRun>, i: nat)
    requires i < |runs| && !runs[i].status.Completed?
    ensures runs[i].key in KeysToExecute(runs)
  {
    if i < |runs| - 1 {
      OpenIsListed(runs[..|runs| - 1], i);
    }
  }

  lemma AllDoneIsReady(before: seq<ConfirmationRun>, after: seq<ConfirmationRun>)
    requires before != [] && OpenRunsAreFirst(before) && Extends(before, after)
    requires forall k <- KeysToExecute(before) :: Done(after, k)
    ensures PlanFor(after).ReadyForStatistics()
  {
    forall i | 0 <= i < |after| ensures after[i].status.Completed? {
      if !before[i].status.Completed? {
        OpenIsListed(before, i);
        var j := FindRun(after, before[i].key).value;
        assert j <= i && before[j].key == before[i].key;
      }
    }
    NothingToExecute(after);
    CompletedKeysNonempty(after);
  }
}
