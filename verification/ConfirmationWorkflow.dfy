/**
  The workflow as it runs: a state object whose marks change one run in place, a request whose state
  is overwritten, and an execution loop that persists after every transition.
  */
module ConfirmationWorkflow {
  import opened Options
  import opened Collections
  import opened ConfirmationSpec
  import opened ConfirmationSafety

  /** Denials that compare the approval with the request. */
  predicate ComparesApproval(d: Denial) {
    !d.RequestRejected? && !d.AlreadyConsumed? && !d.ApprovalRequired?
  }

  /** List what keeps an approval from binding the request. */
  method BindingReasons(request: Request, a: Approval) returns (reasons: seq<Denial>)
    ensures forall d: Denial :: d in reasons <==> ComparesApproval(d) && Applies(d, request, Some(a))
  {
    reasons := [];
    if a.requestId != request.requestId {
      reasons := reasons + [RequestMismatch];
    }
    if a.confirmationId != request.confirmationId {
      reasons := reasons + [StaleConfirmation];
    }
    if a.winnerId != request.winnerId {
      reasons := reasons + [StaleWinner];
    }
    if !a.explicit {
      reasons := reasons + [NotExplicit];
    }
    if a.gpuHours < request.gpuHours {
      reasons := reasons + [BudgetBelowEstimate];
    }
  }

  /** Decide whether the planned runs may consume budget, and list every reason against it. */
  method EvaluateFullRunApproval(request: Request, approval: Option<Approval>)
    returns (allowed: bool, reasons: seq<Denial>)
    ensures allowed <==> Allows(request, approval)
    ensures forall d: Denial :: d in reasons <==> Applies(d, request, approval)
  {
    reasons := [];
    if request.state.Rejected? {
      reasons := reasons + [RequestRejected];
    }
    if request.state.Spent? {
      reasons := reasons + [AlreadyConsumed];
    }
    if approval.None? {
      return false, reasons + [ApprovalRequired];
    }
    var binding := BindingReasons(request, approval.value);
    reasons := reasons + binding;
    allowed := reasons == [];
    GateExactly(request, approval);
    assert allowed ==> forall d: Denial :: d !in reasons;
    assert !allowed ==> reasons[0] in reasons;
  }

  /** Plan the remaining work for a persisted matrix. */
  method PlanResume(runs: seq<ConfirmationRun>) returns (plan: ResumePlan)
    ensures plan == PlanFor(runs)
  {
    var execute, skip, pending, retry, interrupted := [], [], [], [], [];
    var i := 0;
    while i < |runs|
      invariant 0 <= i <= |runs|
      invariant ResumePlan(execute, skip, pending, retry, interrupted) == PlanFor(runs[..i])
    {
      var run := runs[i];
      assert runs[..i + 1][..i] == runs[..i];
      match run.status {
        case Completed => skip := skip + [run.key];
        case Pending => pending, execute := pending + [run.key], execute + [run.key];
        case Failed => retry, execute := retry + [run.key], execute + [run.key];
        case Running => interrupted, execute := interrupted + [run.key], execute + [run.key];
      }
      i := i + 1;
    }
    assert runs[..i] == runs;
    plan := ResumePlan(execute, skip, pending, retry, interrupted);
  }

  /** Progress made after the runs in `done` had been executed. */
  function After(done: seq<RunKey>, p: Progress): Progress {
    Progress(p.disk, done + p.calls, p.stop)
  }

  /** What the whole plan comes to when its first n runs are done and the rest is still to be executed. */
  function PlanFrom(disk: seq<ConfirmationRun>, keys: seq<RunKey>, n: nat, left: seq<Fate>): Progress
    requires n <= |keys|
  {
    After(keys[..n], RunAll(disk, keys[n..], left))
  }

  lemma PlanStarts(disk: seq<ConfirmationRun>, keys: seq<RunKey>, fates: seq<Fate>)
    ensures PlanFrom(disk, keys, 0, fates) == RunAll(disk, keys, fates)
  {
    assert keys[0..] == keys && keys[..0] + RunAll(disk, keys, fates).calls == RunAll(disk, keys, fates).calls;
  }

  lemma PlanEnds(disk: seq<ConfirmationRun>, keys: seq<RunKey>, left: seq<Fate>)
    ensures PlanFrom(disk, keys, |keys|, left) == Progress(disk, keys, None)
  {
    assert keys[|keys|..] == [] && keys[..|keys|] == keys;
    assert keys + RunAll(disk, [], left).calls == keys;
  }

  lemma PlanStep(disk: seq<ConfirmationRun>, keys: seq<RunKey>, n: nat, left: seq<Fate>)
    requires n < |keys|
    ensures var a := Attempt(disk, keys[n], FateAt(left, 0));
      && PlanFrom(disk, keys, n, left)
        == (if a.stop.Some? then After(keys[..n], a) else PlanFrom(a.disk, keys, n + 1, Later(left)))
      && (a.stop.None? ==> keys[..n] + a.calls == keys[..n + 1])
  {
    var a := Attempt(disk, keys[n], FateAt(left, 0));
    AttemptExtends(disk, keys[n], FateAt(left, 0));
    assert keys[n..][1..] == keys[n + 1..];
    if a.stop.None? {
      CallsAssociate(keys, n, RunAll(a.disk, keys[n + 1..], Later(left)).calls);
    }
  }

  lemma CallsAssociate(keys: seq<RunKey>, n: nat, rest: seq<RunKey>)
    requires n < |keys|
    ensures keys[..n] + ([keys[n]] + rest) == keys[..n + 1] + rest
    ensures keys[..n] + [keys[n]] == keys[..n + 1]
  {
  }

  /** What a sequence of invocations comes to when `asked` has been executed before. */
  function Resumed(asked: seq<RunKey>, rest: (World, seq<RunKey>)): (World, seq<RunKey>) {
    (rest.0, asked + rest.1)
  }

  lemma PlayPrepend(p: (World, seq<RunKey>))
    ensures Resumed([], p) == p
  {
    assert [] + p.1 == p.1;
  }

  lemma PlayStep(asked: seq<RunKey>, w: World, vs: seq<Invocation>)
    requires vs != []
    ensures var e := Execute(w, vs[0]);
      Resumed(asked, Play(w, vs)) == Resumed(asked + e.calls, Play(e.world, vs[1..]))
  {
    hide Execute;
    var e := Execute(w, vs[0]);
    AppendAssociates(asked, e.calls, Play(e.world, vs[1..]).1);
  }

  lemma PlayEnds(asked: seq<RunKey>, w: World, vs: seq<Invocation>)
    requires vs == []
    ensures Resumed(asked, Play(w, vs)) == (w, asked)
  {
    assert asked + [] == asked;
  }

  class Confirmation {
    // The state in memory, what the persist hook last wrote, the caller's request, and every run the
    // executor has been called for.
    var runs: seq<ConfirmationRun>
    var disk: seq<ConfirmationRun>
    var request: Request
    var calls: seq<RunKey>

    constructor (runs: seq<ConfirmationRun>, request: Request)
      ensures this.runs == runs && disk == runs && this.request == request && calls == []
    {
      this.runs, disk, this.request, calls := runs, runs, request, [];
    }

    method RunIndex(k: RunKey) returns (r: Option<nat>)
      ensures r == FindRun(runs, k)
    {
      var i := 0;
      while i < |runs|
        invariant 0 <= i <= |runs|
        invariant forall j :: 0 <= j < i ==> runs[j].key != k
      {
        if runs[i].key == k {
          return Some(i);
        }
        i := i + 1;
      }
      return None;
    }

    method MarkRunning(k: RunKey) returns (error: Option<MarkError>)
      modifies this`runs
      ensures match ConfirmationSpec.MarkRunning(old(runs), k)
        case Ok(rs) => error == None && runs == rs
        case Err(e) => error == Some(e) && runs == old(runs)
    {
      var found := RunIndex(k);
      if found.None? {
        return Some(NoSuchRun);
      }
      var run := runs[found.value];
      if run.status.Completed? {
        return Some(TerminalRun);
      }
      runs := runs[found.value := run.(status := Running, error := None)];
      error := None;
    }

    method MarkCompleted(k: RunKey, m: Metrics) returns (error: Option<MarkError>)
      modifies this`runs
      ensures match ConfirmationSpec.MarkCompleted(old(runs), k, m)
        case Ok(rs) => error == None && runs == rs
        case Err(e) => error == Some(e) && runs == old(runs)
    {
      var found := RunIndex(k);
      if found.None? {
        return Some(NoSuchRun);
      }
      var run := runs[found.value];
      if !run.status.Running? {
        return Some(NotRunning);
      }
      if PRIMARY_METRIC !in m {
        return Some(MissingPrimary);
      }
      runs := runs[found.value := run.(status := Completed, metrics := m)];
      error := None;
    }

    method MarkFailed(k: RunKey, cause: string) returns (error: Option<MarkError>)
      modifies this`runs
      ensures match ConfirmationSpec.MarkFailed(old(runs), k, cause)
        case Ok(rs) => error == None && runs == rs
        case Err(e) => error == Some(e) && runs == old(runs)
    {
      var found := RunIndex(k);
      if found.None? {
        return Some(NoSuchRun);
      }
      var run := runs[found.value];
      if run.status.Completed? {
        return Some(TerminalRun);
      }
      runs := runs[found.value := run.(status := Failed, error := Some(cause))];
      error := None;
    }

    /** A process that died resumes from what it had persisted. */
    method Reload()
      modifies this`runs
      ensures runs == disk
    {
      runs := disk;
    }

    /** Record a failed run, persist, and stop. */
    method FailRun(k: RunKey, cause: string) returns (stop: Stop)
      requires runs == disk
      modifies this`runs, this`disk
      ensures Progress(disk, [k], Some(stop)) == Fail(old(disk), k, cause)
    {
      var error := MarkFailed(k, cause);
      if error.Some? {
        return IllegalMark(k);
      }
      disk := runs;
      stop := RunError(k);
    }

    /** One run of the plan: claim and persist, execute, record and persist. */
    method AttemptRun(k: RunKey, fate: Fate) returns (stop: Option<Stop>)
      requires runs == disk
      modifies this`runs, this`disk, this`calls
      ensures var a := Attempt(old(disk), k, fate);
        disk == a.disk && calls == old(calls) + a.calls && stop == a.stop
      ensures stop.None? ==> runs == disk
    {
      if fate.DiesBeforeClaim? {
        return Some(Died);
      }
      var error := MarkRunning(k);
      if error.Some? {
        return Some(IllegalMark(k));
      }
      disk := runs;
      calls := calls + [k];
      match fate {
        case DiesDuringRun =>
          stop := Some(Died);
        case Raises(cause) =>
          var s := FailRun(k, cause);
          stop := Some(s);
        case Returns(m) =>
          error := MarkCompleted(k, m);
          if error.Some? {
            var s := FailRun(k, "missing primary metric");
            stop := Some(s);
          } else {
            disk := runs;
            stop := None;
          }
      }
    }

    /** The execution loop over the keys of a plan. */
    method RunPlan(keys: seq<RunKey>, fates: seq<Fate>) returns (stop: Option<Stop>)
      requires runs == disk
      modifies this`runs, this`disk, this`calls
      ensures var p := RunAll(old(disk), keys, fates);
        disk == p.disk && calls == old(calls) + p.calls && stop == p.stop
      ensures stop.None? ==> runs == disk
    {
      ghost var whole, asked := RunAll(disk, keys, fates), calls;
      PlanStarts(disk, keys, fates);
      var n, left := 0, fates;
      while n < |keys|
        invariant 0 <= n <= |keys|
        invariant runs == disk && calls == asked + keys[..n]
        invariant whole == PlanFrom(disk, keys, n, left)
      {
        PlanStep(disk, keys, n, left);
        ghost var a := Attempt(disk, keys[n], FateAt(left, 0));
        stop := AttemptRun(keys[n], FateAt(left, 0));
        AppendAssociates(asked, keys[..n], a.calls);
        if stop.Some? {
          return;
        }
        left := Later(left);
        n := n + 1;
      }
      PlanEnds(disk, keys, left);
      stop := None;
    }

    /** Run or resume the matrix. */
    method ExecuteConfirmation(v: Invocation) returns (outcome: Outcome)
      requires runs == disk
      modifies this
      ensures var e := Execute(World(old(disk), old(request)), v);
        World(disk, request) == e.world && calls == old(calls) + e.calls && outcome == e.outcome
    {
      var allowed, _ := EvaluateFullRunApproval(request, v.approval);
      if !allowed {
        return Denied;
      }
      var asReceived := request;
      request := request.(state := Approved);
      var plan := PlanResume(runs);
      var stop := RunPlan(plan.execute, v.fates);
      if stop.Some? {
        if stop.value.Died? {
          request := asReceived;
        }
        return Stopped(stop.value);
      }
      var final := PlanResume(runs);
      if !final.ReadyForStatistics() {
        return Incomplete;
      }
      if v.diesAtEnd {
        request := asReceived;
        return Stopped(Died);
      }
      request := request.(state := Spent);
      outcome := Finished(plan.execute, plan.skipCompleted);
    }

    /**
      Run and resume until the list of invocations is used up; each of them starts from what is on disk.
      */
    method ExecuteAll(vs: seq<Invocation>)
      modifies this
      ensures var p := Play(World(old(disk), old(request)), vs);
        World(disk, request) == p.0 && calls == old(calls) + p.1
    {
      hide Execute;
      ghost var before, asked := calls, [];
      var n := 0;
      assert calls == before + asked && vs[0..] == vs;
      PlayPrepend(Play(World(disk, request), vs));
      while n < |vs|
        invariant 0 <= n <= |vs| && calls == before + asked
        invariant Play(World(old(disk), old(request)), vs) ==
          Resumed(asked, Play(World(disk, request), vs[n..]))
      {
        ghost var e := Execute(World(disk, request), vs[n]);
        PlayStep(asked, World(disk, request), vs[n..]);
        Reload();
        var _ := ExecuteConfirmation(vs[n]);
        AppendAssociates(before, asked, e.calls);
        asked := asked + e.calls;
        assert vs[n..][1..] == vs[n + 1..];
        n := n + 1;
      }
      PlayEnds(asked, World(disk, request), vs[n..]);
    }
  }
}
