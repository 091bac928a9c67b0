/** Budgets over whole sequences of invocations: executor calls, approvals, and the one normal return. */
module ConfirmationPlays {
  import opened Options
  import opened ConfirmationSpec
  import opened ConfirmationSafety

  // Executor calls

  function CompletedRuns(runs: seq<ConfirmationRun>): nat {
    if runs == [] then 0
    else CompletedRuns(runs[..|runs| - 1]) + (if runs[|runs| - 1].status.Completed? then 1 else 0)
  }

  lemma {:induction false} CompletedGrows(xs: seq<ConfirmationRun>, ys: seq<ConfirmationRun>)
    requires Extends(xs, ys)
    ensures CompletedRuns(xs) <= CompletedRuns(ys)
  {
    if xs != [] {
      CompletedGrows(xs[..|xs| - 1], ys[..|ys| - 1]);
    }
  }

  lemma {:induction false} CompletedGrowsAt(xs: seq<ConfirmationRun>, ys: seq<ConfirmationRun>, i: nat)
    requires Extends(xs, ys) && i < |xs| && !xs[i].status.Completed? && ys[i].status.Completed?
    ensures CompletedRuns(xs) < CompletedRuns(ys)
  {
    var n := |xs| - 1;
    if i < n {
      CompletedGrowsAt(xs[..n], ys[..n], i);
    } else {
      CompletedGrows(xs[..n], ys[..n]);
    }
  }

  /** Each call of the executor completes a run for good, except the last one before the loop stops. */
  lemma {:induction false} RunAllCallBudget(disk: seq<ConfirmationRun>, keys: seq<RunKey>, fates: seq<Fate>)
    ensures var r := RunAll(disk, keys, fates);
      |r.calls| + CompletedRuns(disk) <= CompletedRuns(r.disk) + if r.stop.Some? then 1 else 0
    decreases |keys|
  {
    hide Attempt;
    if keys != [] {
      var a := Attempt(disk, keys[0], FateAt(fates, 0));
      AttemptExtends(disk, keys[0], FateAt(fates, 0));
      CompletedGrows(disk, a.disk);
      if a.stop.None? {
        SameFind(disk, a.disk, keys[0]);
        CompletedGrowsAt(disk, a.disk, FindRun(disk, keys[0]).value);
        RunAllCallBudget(a.disk, keys[1..], Later(fates));
      }
    }
  }

  lemma ExecuteCallBudget(w: World, v: Invocation)
    ensures var e := Execute(w, v);
      |e.calls| + CompletedRuns(w.disk) <= CompletedRuns(e.world.disk) + 1
  {
    RunAllCallBudget(w.disk, PlanFor(w.disk).execute, v.fates);
  }

  /**
    Over any sequence of invocations the executor is called at most once for every run that becomes
    completed, and once more per invocation for a run that failed or that the process died in.
    */
  lemma {:induction false} CallBudget(w: World, vs: seq<Invocation>)
    ensures |Play(w, vs).1| <= CompletedRuns(Play(w, vs).0.disk) - CompletedRuns(w.disk) + |vs|
    decreases |vs|
  {
    hide Execute, CompletedRuns;
    if vs != [] {
      ExecuteCallBudget(w, vs[0]);
      CallBudget(Execute(w, vs[0]).world, vs[1..]);
    }
  }

  // Approvals

  predicate Bound(r: Request, v: Invocation) {
    v.approval.Some? && Binds(r, v.approval.value)
  }

  /** The invocations that present an approval bound to the request. */
  function OnlyBound(r: Request, vs: seq<Invocation>): seq<Invocation> {
    if vs == [] then []
    else (if Bound(r, vs[0]) then [vs[0]] else []) + OnlyBound(r, vs[1..])
  }

  /** The request keeps its identity and its cost; only its state moves. */
  lemma RequestStays(w: World, v: Invocation)
    ensures var r := Execute(w, v).world.request; r == w.request.(state := r.state)
  {
  }

  lemma {:induction false} OnlyBoundSame(r: Request, r': Request, vs: seq<Invocation>)
    requires r' == r.(state := r'.state)
    ensures OnlyBound(r, vs) == OnlyBound(r', vs)
  {
    if vs != [] {
      OnlyBoundSame(r, r', vs[1..]);
    }
  }

  /**
    Invocations without a bound approval leave no trace: a sequence of invocations has the effect, on
    disk and on the executor, of those among them that present a bound approval.
    */
  lemma {:induction false} OnlyBoundInvocationsCount(w: World, vs: seq<Invocation>)
    ensures Play(w, vs) == Play(w, OnlyBound(w.request, vs))
    decreases |vs|
  {
    if vs != [] {
      var e, rest := Execute(w, vs[0]), OnlyBound(w.request, vs[1..]);
      RequestStays(w, vs[0]);
      OnlyBoundSame(w.request, e.world.request, vs[1..]);
      OnlyBoundInvocationsCount(e.world, vs[1..]);
      if Bound(w.request, vs[0]) {
        assert OnlyBound(w.request, vs) == [vs[0]] + rest;
        assert ([vs[0]] + rest)[1..] == rest;
      } else {
        assert OnlyBound(w.request, vs) == [] + rest == rest;
        NoCallWithoutApproval(w, vs[0]);
        assert e == Effect(w, [], Denied);
        assert e.calls + Play(w, vs[1..]).1 == Play(w, vs[1..]).1;
      }
    }
  }

  // The one normal return

  /** How many of the invocations return normally. */
  function Returned(w: World, vs: seq<Invocation>): nat
    decreases |vs|
  {
    if vs == [] then 0
    else
      var e := Execute(w, vs[0]);
      (if e.outcome.Finished? then 1 else 0) + Returned(e.world, vs[1..])
  }

  lemma {:induction false} SpentReturnsNothing(w: World, vs: seq<Invocation>)
    requires w.request.state.Spent?
    ensures Returned(w, vs) == 0
    decreases |vs|
  {
    if vs != [] {
      SpentReturnsNothing(w, vs[1..]);
    }
  }

  /**
    At most one invocation ever returns normally on one request, the request is spent exactly from then
    on, and until then an approval that was good stays good.
    */
  lemma {:induction false} ReturnsAtMostOnce(w: World, vs: seq<Invocation>, a: Option<Approval>)
    requires !w.request.state.Spent?
    ensures Returned(w, vs) <= 1
    ensures Play(w, vs).0.request.state.Spent? <==> Returned(w, vs) == 1
    ensures Allows(w.request, a) ==> (Allows(Play(w, vs).0.request, a) <==> Returned(w, vs) == 0)
    decreases |vs|
  {
    hide Execute;
    if vs != [] {
      var e := Execute(w, vs[0]);
      OnlyFinishingSpends(w, vs[0]);
      if !e.world.request.state.Spent? && Allows(w.request, a) {
        StaysOpen(w, vs[0], a);
      }
      if e.world.request.state.Spent? {
        SpentReturnsNothing(e.world, vs[1..]);
        SpentForever(e.world, vs[1..]);
      } else {
        ReturnsAtMostOnce(e.world, vs[1..], a);
      }
    }
  }

  lemma StaysOpen(w: World, v: Invocation, a: Option<Approval>)
    requires !Execute(w, v).world.request.state.Spent? && Allows(w.request, a)
    ensures Allows(Execute(w, v).world.request, a)
  {
  }

  /** What an invocation leaves of the request: a normal return spends it, and a death changes nothing. */
  lemma RequestAfter(w: World, v: Invocation)
    ensures var e := Execute(w, v);
      && (e.outcome == Denied <==> exists d: Denial :: Applies(d, w.request, v.approval))
      && (e.outcome == Denied || e.outcome == Stopped(Died) ==> e.world.request == w.request)
      && (e.outcome.Finished? ==> e.world.request == w.request.(state := Spent))
      && (e.outcome == Incomplete || (e.outcome.Stopped? && e.outcome.stop != Died) ==>
            e.world.request == w.request.(state := Approved))
  {
    hide RunAll, PlanFor, Applies;
    GateExactly(w.request, v.approval);
  }
}
