/**
  The matched-seed confirmation: per-run states, the full-run approval gate, the resume plan, and one
  invocation of the workflow as a function of what is on disk and of what the environment does.
  */
module ConfirmationSpec {
  import opened Options

  const PRIMARY_METRIC: string := "map50_95"

  datatype Role = Baseline | Candidate

  datatype RunStatus = Pending | Running | Completed | Failed

  /** Identity of a run inside its matrix. */
  datatype RunKey = RunKey(role: Role, seed: int)

  type Metrics = map<string, real>

  datatype ConfirmationRun = ConfirmationRun(key: RunKey, status: RunStatus, metrics: Metrics, error: Option<string>)

  // Run states

  /** The first run with this key. */
  function FindRun(runs: seq<ConfirmationRun>, k: RunKey): (r: Option<nat>)
    ensures r.Some? ==> r.value < |runs| && runs[r.value].key == k
    ensures r.Some? ==> forall j :: 0 <= j < r.value ==> runs[j].key != k
    ensures r.None? ==> forall j :: 0 <= j < |runs| ==> runs[j].key != k
  {
    if runs == [] then None
    else if runs[0].key == k then Some(0)
    else match FindRun(runs[1..], k)
      case None => None
      case Some(j) => Some(j + 1)
  }

  datatype MarkError = NoSuchRun | TerminalRun | NotRunning | MissingPrimary

  function MarkRunning(runs: seq<ConfirmationRun>, k: RunKey): (r: Result<seq<ConfirmationRun>, MarkError>)
    ensures r.Ok? ==> |r.value| == |runs|
  {
    match FindRun(runs, k)
    case None => Err(NoSuchRun)
    case Some(i) =>
      if runs[i].status.Completed? then Err(TerminalRun)
      else Ok(runs[i := runs[i].(status := Running, error := None)])
  }

  function MarkCompleted(runs: seq<ConfirmationRun>, k: RunKey, m: Metrics):
    (r: Result<seq<ConfirmationRun>, MarkError>)
    ensures r.Ok? ==> |r.value| == |runs|
  {
    match FindRun(runs, k)
    case None => Err(NoSuchRun)
    case Some(i) =>
      if !runs[i].status.Running? then Err(NotRunning)
      else if PRIMARY_METRIC !in m then Err(MissingPrimary)
      else Ok(runs[i := runs[i].(status := Completed, metrics := m)])
  }

  function MarkFailed(runs: seq<ConfirmationRun>, k: RunKey, cause: string):
    (r: Result<seq<ConfirmationRun>, MarkError>)
    ensures r.Ok? ==> |r.value| == |runs|
  {
    match FindRun(runs, k)
    case None => Err(NoSuchRun)
    case Some(i) =>
      if runs[i].status.Completed? then Err(TerminalRun)
      else Ok(runs[i := runs[i].(status := Failed, error := Some(cause))])
  }

  // Approval

  datatype RequestState = PendingApproval | Approved | Rejected | Spent

  datatype Request = Request(
    requestId: string, confirmationId: string, winnerId: string, gpuHours: real, state: RequestState)

  datatype Approval = Approval(
    requestId: string, confirmationId: string, winnerId: string, explicit: bool, gpuHours: real)

  datatype Denial =
    | RequestRejected | AlreadyConsumed | ApprovalRequired
    | RequestMismatch | StaleConfirmation | StaleWinner | NotExplicit | BudgetBelowEstimate

  /** The approval is bound to exactly this request and covers its cost. */
  predicate Binds(r: Request, a: Approval) {
    && a.requestId == r.requestId && a.confirmationId == r.confirmationId && a.winnerId == r.winnerId
    && a.explicit && a.gpuHours >= r.gpuHours
  }

  /** The gate: an open request and an approval bound to it. */
  predicate Allows(r: Request, a: Option<Approval>) {
    !r.state.Rejected? && !r.state.Spent? && a.Some? && Binds(r, a.value)
  }

  /** When each denial applies. */
  predicate Applies(d: Denial, r: Request, a: Option<Approval>) {
    match d
    case RequestRejected => r.state.Rejected?
    case AlreadyConsumed => r.state.Spent?
    case ApprovalRequired => a.None?
    case RequestMismatch => a.Some? && a.value.requestId != r.requestId
    case StaleConfirmation => a.Some? && a.value.confirmationId != r.confirmationId
    case StaleWinner => a.Some? && a.value.winnerId != r.winnerId
    case NotExplicit => a.Some? && !a.value.explicit
    case BudgetBelowEstimate => a.Some? && a.value.gpuHours < r.gpuHours
  }

  // Resume plan

  function Keys(runs: seq<ConfirmationRun>): seq<RunKey> {
    if runs == [] then [] else Keys(runs[..|runs| - 1]) + [runs[|runs| - 1].key]
  }

  function KeysWith(runs: seq<ConfirmationRun>, status: RunStatus): seq<RunKey> {
    if runs == [] then []
    else
      var last := runs[|runs| - 1];
      KeysWith(runs[..|runs| - 1], status) + (if last.status == status then [last.key] else [])
  }

  function KeysToExecute(runs: seq<ConfirmationRun>): seq<RunKey> {
    if runs == [] then []
    else
      var last := runs[|runs| - 1];
      KeysToExecute(runs[..|runs| - 1]) + (if last.status.Completed? then [] else [last.key])
  }

  datatype ResumePlan = ResumePlan(
    execute: seq<RunKey>, skipCompleted: seq<RunKey>,
    pending: seq<RunKey>, retryFailed: seq<RunKey>, interrupted: seq<RunKey>)
  {
    predicate ReadyForStatistics() {
      execute == [] && skipCompleted != []
    }
  }

  function PlanFor(runs: seq<ConfirmationRun>): ResumePlan {
    ResumePlan(KeysToExecute(runs), KeysWith(runs, Completed), KeysWith(runs, Pending),
               KeysWith(runs, Failed), KeysWith(runs, Running))
  }

  // One invocation

  /** What the environment does to the next run of the plan. */
  datatype Fate =
    | DiesBeforeClaim
    | DiesDuringRun
    | Returns(metrics: Metrics)
    | Raises(cause: string)

  /** The fate of the n-th executed run; a script that ends is a process that dies. */
  function FateAt(fates: seq<Fate>, n: nat): Fate {
    if n < |fates| then fates[n] else DiesBeforeClaim
  }

  function Later(fates: seq<Fate>): seq<Fate> {
    if fates == [] then [] else fates[1..]
  }

  datatype Stop = Died | RunError(key: RunKey) | IllegalMark(key: RunKey)

  /** What is on disk, whom the executor was called for, and why the loop stopped early. */
  datatype Progress = Progress(disk: seq<ConfirmationRun>, calls: seq<RunKey>, stop: Option<Stop>)

  /** One run of the plan: claim, persist, execute, record, persist. */
  function Attempt(disk: seq<ConfirmationRun>, k: RunKey, fate: Fate): (r: Progress)
    ensures |r.disk| == |disk|
  {
    var claimed := MarkRunning(disk, k);
    if fate.DiesBeforeClaim? then Progress(disk, [], Some(Died))
    else if claimed.Err? then Progress(disk, [], Some(IllegalMark(k)))
    else if fate.DiesDuringRun? then Progress(claimed.value, [k], Some(Died))
    else if fate.Raises? then Fail(claimed.value, k, fate.cause)
    else
      var done := MarkCompleted(claimed.value, k, fate.metrics);
      if done.Ok? then Progress(done.value, [k], None)
      else Fail(claimed.value, k, "missing primary metric")
  }

  function Fail(claimed: seq<ConfirmationRun>, k: RunKey, cause: string): (r: Progress)
    ensures |r.disk| == |claimed|
  {
    var failed := MarkFailed(claimed, k, cause);
    if failed.Ok? then Progress(failed.value, [k], Some(RunError(k))) else Progress(claimed, [k], Some(IllegalMark(k)))
  }

  function RunAll(disk: seq<ConfirmationRun>, keys: seq<RunKey>, fates: seq<Fate>): (r: Progress)
    ensures |r.disk| == |disk|
    decreases |keys|
  {
    if keys == [] then Progress(disk, [], None)
    else
      var a := Attempt(disk, keys[0], FateAt(fates, 0));
      if a.stop.Some? then a
      else
        var rest := RunAll(a.disk, keys[1..], Later(fates));
        Progress(rest.disk, a.calls + rest.calls, rest.stop)
  }

  datatype World = World(disk: seq<ConfirmationRun>, request: Request)

  datatype Outcome =
    | Denied
    | Stopped(stop: Stop)
    | Incomplete
    | Finished(executed: seq<RunKey>, skipped: seq<RunKey>)

  /** One call of execute_confirmation, which may die once more just before it returns. */
  datatype Invocation = Invocation(approval: Option<Approval>, fates: seq<Fate>, diesAtEnd: bool)

  datatype Effect = Effect(world: World, calls: seq<RunKey>, outcome: Outcome)

  function Execute(w: World, v: Invocation): Effect {
    if !Allows(w.request, v.approval) then Effect(w, [], Denied)
    else
      var granted := w.request.(state := Approved);
      var plan := PlanFor(w.disk);
      var p := RunAll(w.disk, plan.execute, v.fates);
      if p.stop == Some(Died) then Effect(World(p.disk, w.request), p.calls, Stopped(Died))
      else if p.stop.Some? then Effect(World(p.disk, granted), p.calls, Stopped(p.stop.value))
      else if !PlanFor(p.disk).ReadyForStatistics() then Effect(World(p.disk, granted), p.calls, Incomplete)
      else if v.diesAtEnd then Effect(World(p.disk, w.request), p.calls, Stopped(Died))
      else Effect(World(p.disk, granted.(state := Spent)), p.calls, Finished(plan.execute, plan.skipCompleted))
  }

  /** Any sequence of executes and resumes, and everything the executor was called for. */
  function Play(w: World, vs: seq<Invocation>): (World, seq<RunKey>)
    decreases |vs|
  {
    if vs == [] then (w, [])
    else
      var e := Execute(w, vs[0]);
      var rest := Play(e.world, vs[1..]);
      (rest.0, e.calls + rest.1)
  }
}
