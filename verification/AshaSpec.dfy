/**
  The scheduler's operations as functions of the study: what each public method leaves behind and
  returns.  `AshaScheduler` implements them step by step on mutable fields; the other modules prove
  what they mean for whole runs.
  */
module AshaSpec {
  import opened Options
  import opened AshaTypes
  import opened AssignmentIds
  import opened Promotion
  import Confidence

  // Lookups

  /** The first trial with this id. */
  function Find(trials: seq<Trial>, id: string): (r: Option<nat>)
    ensures r.Some? ==> r.value < |trials| && trials[r.value].card.id == id
  {
    if trials == [] then None
    else
      var n := |trials| - 1;
      var r := Find(trials[..n], id);
      if r.Some? then r else if trials[n].card.id == id then Some(n) else None
  }

  predicate IsFor(a: Assignment, id: string, k: Key) {
    a.trialId == id && a.key == k
  }

  /** The first assignment recorded for this trial and key. */
  function FindKey(asgs: seq<Assignment>, id: string, k: Key): (r: Option<nat>)
    ensures r.Some? ==> r.value < |asgs| && IsFor(asgs[r.value], id, k)
  {
    if asgs == [] then None
    else
      var n := |asgs| - 1;
      var r := FindKey(asgs[..n], id, k);
      if r.Some? then r else if IsFor(asgs[n], id, k) then Some(n) else None
  }

  /** The status of the assignment recorded for this trial and key, if any. */
  function Slot(asgs: seq<Assignment>, id: string, k: Key): Option<AssignmentStatus> {
    match FindKey(asgs, id, k)
    case None => None
    case Some(j) => Some(asgs[j].status)
  }

  /** Python's `a or b` on optional strings. */
  function OrElse(a: Option<string>, b: Option<string>): Option<string> {
    if a.Some? && a.value != "" then a else b
  }

  // report

  function FinishAssignment(asgs: seq<Assignment>, id: string, o: Observation): (r: seq<Assignment>)
    ensures |r| == |asgs|
  {
    match FindKey(asgs, id, o.key)
    case None => asgs
    case Some(j) =>
      asgs[j := asgs[j].(
        status := if o.evidence.failure != "" then AssignmentStatus.Failed else AssignmentStatus.Completed,
        nodeId := OrElse(asgs[j].nodeId, Some(o.evidence.nodeId)))]
  }

  /** Evidence that may be ranked: complete, with a delta, and verified on both records. */
  predicate Usable(e: Evidence) {
    e.complete && e.delta.Some? && e.verified && e.pairedVerified
  }

  function Eliminate(t: Trial, why: Reason): Trial {
    t.(status := Eliminated, pending := None, reason := why)
  }

  /** The first pilot_10 guard that the evidence fails, or NoReason. */
  function GuardPilot10(cfg: Config, e: Evidence): Reason {
    if cfg.pilot10.requirePositive && e.delta.Some? && e.delta.value <= 0.0 then NonPositiveDelta(Pilot10)
    else if e.gate != Some(true) then RejectionOr(e.rejection, GateFailed(Pilot10))
    else if cfg.pilot10.requireTargetImprovement && e.improvedCount < 1 then TargetNotImproved
    else NoReason
  }

  function GuardFullSeed1(e: Evidence): Reason {
    if e.delta.None? || e.delta.value <= 0.0 then NonPositiveDelta(FullSeed1)
    else if e.gate != Some(true) then RejectionOr(e.rejection, GateFailed(FullSeed1))
    else NoReason
  }

  function FinishPilot10(cfg: Config, t: Trial, e: Evidence): Trial {
    if GuardPilot10(cfg, e) != NoReason then Eliminate(t, GuardPilot10(cfg, e))
    else t.(status := FullPendingConfirmation, pending := Some(FullSeed1))
  }

  function FinishFullSeed1(t: Trial, e: Evidence): Trial {
    if GuardFullSeed1(e) != NoReason then Eliminate(t, GuardFullSeed1(e))
    else t.(status := ConfirmationPending, pending := Some(FullConfirmation))
  }

  /** The key of the j-th configured seed: full seed 1, then the confirmation seeds. */
  function SeedKey(j: nat): Key {
    if j == 0 then FULL1 else Key(FullConfirmation, j + 1)
  }

  predicate AllSeedsObserved(cfg: Config, t: Trial) {
    forall j :: 0 <= j < |cfg.seeds| ==> At(t, SeedKey(j)).Some?
  }

  function SeedEvidence(cfg: Config, t: Trial): (r: seq<Evidence>)
    requires AllSeedsObserved(cfg, t)
    ensures |r| == |cfg.seeds|
    ensures forall j :: 0 <= j < |r| ==> At(t, SeedKey(j)) == Some(r[j])
  {
    seq(|cfg.seeds|, j requires 0 <= j < |cfg.seeds| && At(t, SeedKey(j)).Some? => At(t, SeedKey(j)).value)
  }

  predicate Positive(e: Evidence) {
    e.delta.Some? && e.delta.value > 0.0 && e.gate == Some(true)
  }

  predicate AllPositive(es: seq<Evidence>) {
    forall j :: 0 <= j < |es| ==> Positive(es[j])
  }

  /** The deltas that were measured, in seed order. */
  function Deltas(es: seq<Evidence>): seq<real> {
    if es == [] then []
    else (if es[0].delta.Some? then [es[0].delta.value] else []) + Deltas(es[1..])
  }

  /** Every seed is positive and the paired interval lies above zero. */
  predicate Confirms(es: seq<Evidence>) {
    AllPositive(es) && Confidence.LowerBoundPositive(Deltas(es))
  }

  function FinishConfirmation(cfg: Config, t: Trial): Trial {
    if !AllSeedsObserved(cfg, t) then
      t.(status := ConfirmationPending, pending := Some(FullConfirmation))
    else
      var es := SeedEvidence(cfg, t);
      if Confirms(es) then t.(status := Confirmed, pending := None)
      else Eliminate(t, if AllPositive(es) then IntervalNotPositive else NotConsistentlyPositive)
  }

  function Recorded(t: Trial, o: Observation): Trial {
    t.(observations := Record(t.observations, o))
  }

  /** Where the reported trial goes on its own, before any refresh. */
  function Settle(cfg: Config, t: Trial, o: Observation): Trial {
    var e := o.evidence;
    if e.failure != "" then t.(status := TrialStatus.Failed, pending := None, reason := Text(e.failure))
    else if !Usable(e) then t.(status := NeedsEvidence, pending := Some(o.key.stage))
    else match o.key.stage
      case Pilot3 => t.(status := Waiting, pending := None)
      case Pilot10 => FinishPilot10(cfg, t, e)
      case FullSeed1 => FinishFullSeed1(t, e)
      case FullConfirmation => FinishConfirmation(cfg, t)
  }

  /** Only usable pilot_3 evidence makes the whole cohort be reconsidered. */
  predicate Refreshes(o: Observation) {
    o.evidence.failure == "" && Usable(o.evidence) && o.key.stage.Pilot3?
  }

  function Report(s: Study, i: nat, o: Observation): (r: Study)
    requires i < |s.trials|
    ensures |r.trials| == |s.trials|
  {
    var t := s.trials[i];
    var settled := s.trials[i := Settle(s.cfg, Recorded(t, o), o)];
    s.(trials := if Refreshes(o) then Refresh(s.cfg, settled) else settled,
       assignments := FinishAssignment(s.assignments, t.card.id, o))
  }

  // next_assignment

  predicate RunnableStatus(st: TrialStatus, confirm: bool) {
    || st.Waiting? || st.Running? || st.PromotionPending?
    || (confirm && (st.FullPendingConfirmation? || st.ConfirmationPending?))
  }

  /** A paper adapter still has ASHA work. */
  predicate PaperPending(trials: seq<Trial>, confirm: bool) {
    exists i :: 0 <= i < |trials| && trials[i].card.paper && RunnableStatus(trials[i].status, confirm)
  }

  predicate IsPaperId(trials: seq<Trial>, id: string) {
    Find(trials, id).Some? && trials[Find(trials, id).value].card.paper
  }

  function DeferAssignment(trials: seq<Trial>, a: Assignment): Assignment {
    if Outstanding(a.status) && !IsPaperId(trials, a.trialId) then a.(status := Deferred) else a
  }

  /** The stage of the last outstanding assignment of a trial. */
  function LastOutstanding(asgs: seq<Assignment>, id: string): Option<Stage> {
    if asgs == [] then None
    else
      var a := asgs[|asgs| - 1];
      if a.trialId == id && Outstanding(a.status) then Some(a.key.stage)
      else LastOutstanding(asgs[..|asgs| - 1], id)
  }

  function DeferTrial(asgs: seq<Assignment>, t: Trial): Trial {
    if !t.card.paper && LastOutstanding(asgs, t.card.id).Some? then
      var st := DeferredState(LastOutstanding(asgs, t.card.id).value);
      t.(status := st.0, pending := st.1, deferredForPaper := true)
    else t
  }

  /** Every outstanding native assignment is put back. */
  function DeferNative(s: Study): (r: Study)
    ensures |r.trials| == |s.trials| && |r.assignments| == |s.assignments| && r.cfg == s.cfg
    ensures forall i :: 0 <= i < |s.trials| ==> r.trials[i] == DeferTrial(s.assignments, s.trials[i])
    ensures forall j :: 0 <= j < |s.assignments| ==>
      r.assignments[j] == DeferAssignment(s.trials, s.assignments[j])
  {
    s.(trials := seq(|s.trials|, i requires 0 <= i < |s.trials| => DeferTrial(s.assignments, s.trials[i])),
       assignments := seq(|s.assignments|, j requires 0 <= j < |s.assignments| =>
                            DeferAssignment(s.trials, s.assignments[j])))
  }

  /** An assignment that may be handed out again as it is. */
  predicate CanRecover(trials: seq<Trial>, a: Assignment, confirm: bool, paperOnly: bool) {
    && Outstanding(a.status)
    && (IsFull(a.key.stage) ==> confirm)
    && (paperOnly ==> IsPaperId(trials, a.trialId))
  }

  /** The first recoverable assignment. */
  function Recoverable(trials: seq<Trial>, asgs: seq<Assignment>, confirm: bool, paperOnly: bool):
    (r: Option<Assignment>)
    ensures r.Some? ==> r.value in asgs && CanRecover(trials, r.value, confirm, paperOnly)
  {
    if asgs == [] then None
    else if CanRecover(trials, asgs[0], confirm, paperOnly) then Some(asgs[0])
    else Recoverable(trials, asgs[1..], confirm, paperOnly)
  }

  /** The positions of one class, in registration order. */
  function ClassOrder(trials: seq<Trial>, paper: bool): (r: seq<nat>)
    ensures forall p :: 0 <= p < |r| ==> r[p] < |trials| && trials[r[p]].card.paper == paper
    ensures forall i :: 0 <= i < |trials| && trials[i].card.paper == paper ==> i in r
  {
    if trials == [] then []
    else
      var n := |trials| - 1;
      ClassOrder(trials[..n], paper) + (if trials[n].card.paper == paper then [n] else [])
  }

  /** Paper trials first, registration order within a class. */
  function Order(trials: seq<Trial>, paperOnly: bool): seq<nat> {
    ClassOrder(trials, true) + (if paperOnly then [] else ClassOrder(trials, false))
  }

  /** The first confirmation seed from k on that has no observation, or S + 1. */
  function MissingSeedFrom(cfg: Config, t: Trial, k: nat): (r: nat)
    requires 2 <= k <= |cfg.seeds| + 1
    ensures k <= r <= |cfg.seeds| + 1
    ensures r <= |cfg.seeds| ==> At(t, Key(FullConfirmation, r)).None?
    ensures forall m :: k <= m < r ==> At(t, Key(FullConfirmation, m)).Some?
    decreases |cfg.seeds| + 1 - k
  {
    if k > |cfg.seeds| || At(t, Key(FullConfirmation, k)).None? then k else MissingSeedFrom(cfg, t, k + 1)
  }

  /** The key a trial standing at stage st trains next. */
  function NextKey(cfg: Config, t: Trial, st: Stage): Key {
    Key(st, if st.FullConfirmation? then MissingSeedFrom(cfg, t, 2) else 1)
  }

  /** The allocation the ladder would give this trial now. */
  function Choice(cfg: Config, t: Trial, confirm: bool): Option<Key> {
    match t.status
    case ConfirmationPending =>
      var k := NextKey(cfg, t, FullConfirmation);
      if confirm && k.seed <= |cfg.seeds| then Some(k) else None
    case FullPendingConfirmation => if confirm then Some(FULL1) else None
    case Waiting => if t.pending == Some(Pilot3) && At(t, P3).None? then Some(P3) else None
    case PromotionPending => if t.pending == Some(Pilot10) then Some(P10) else None
    case _ => None
  }

  /** The first trial in the order whose next allocation is at stage st. */
  function FirstAt(s: Study, order: seq<nat>, confirm: bool, st: Stage): (r: Option<nat>)
    requires forall p :: 0 <= p < |order| ==> order[p] < |s.trials|
    ensures r.Some? ==> r.value in order && r.value < |s.trials|
    ensures r.Some? ==> Choice(s.cfg, s.trials[r.value], confirm).Some?
    ensures r.Some? ==> Choice(s.cfg, s.trials[r.value], confirm).value.stage == st
    ensures r.None? ==> forall i <- order ::
      !(Choice(s.cfg, s.trials[i], confirm).Some? && Choice(s.cfg, s.trials[i], confirm).value.stage == st)
  {
    if order == [] then None
    else
      var c := Choice(s.cfg, s.trials[order[0]], confirm);
      if c.Some? && c.value.stage == st then Some(order[0]) else FirstAt(s, order[1..], confirm, st)
  }

  /** Confirmation seeds before full seed 1, before pilot_3, before pilot_10. */
  function Select(s: Study, order: seq<nat>, confirm: bool): (r: Option<nat>)
    requires forall p :: 0 <= p < |order| ==> order[p] < |s.trials|
    ensures r.Some? ==> r.value in order && r.value < |s.trials| && Choice(s.cfg, s.trials[r.value], confirm).Some?
    ensures r.None? ==> forall i <- order :: Choice(s.cfg, s.trials[i], confirm).None?
  {
    var c := FirstAt(s, order, confirm, FullConfirmation);
    var f := FirstAt(s, order, confirm, FullSeed1);
    var a := FirstAt(s, order, confirm, Pilot3);
    var b := FirstAt(s, order, confirm, Pilot10);
    if c.Some? then c else if f.Some? then f else if a.Some? then a else b
  }

  function NewAssignment(s: Study, t: Trial, k: Key): Assignment
    requires 1 <= k.seed <= |s.cfg.seeds|
  {
    Assignment(AssignmentId(t.card.id, k), t.card.id, t.card.candidateId, k, s.cfg.seeds[k.seed - 1],
               s.cfg.Spec(k.stage).epochs, s.cfg.Spec(k.stage).fraction, Issued, None, None)
  }

  function Reissued(a: Assignment): Assignment {
    if a.status.Deferred? then a.(status := Issued, runId := None, nodeId := None) else a
  }

  /** Hand out the record of this key: reopened if deferred, as it is otherwise, new if there is none. */
  function Issue(s: Study, i: nat, k: Key): (Study, Assignment)
    requires i < |s.trials| && 1 <= k.seed <= |s.cfg.seeds|
  {
    match FindKey(s.assignments, s.trials[i].card.id, k)
    case Some(j) =>
      (s.(assignments := s.assignments[j := Reissued(s.assignments[j])]), Reissued(s.assignments[j]))
    case None =>
      var a := NewAssignment(s, s.trials[i], k);
      (s.(assignments := s.assignments + [a]), a)
  }

  /** The study once native work has made way for pending paper work. */
  function Yielded(s: Study, confirm: bool): Study {
    if PaperPending(s.trials, confirm) then DeferNative(s) else s
  }

  /** Recover an outstanding assignment, or else issue the next one the ladder offers. */
  function Grant(y: Study, confirm: bool, paperOnly: bool): (Study, Option<Assignment>) {
    match Recoverable(y.trials, y.assignments, confirm, paperOnly)
    case Some(a) => (y, Some(a))
    case None =>
      match Select(y, Order(y.trials, paperOnly), confirm)
      case None => (y, None)
      case Some(i) =>
        var r := Issue(y, i, Choice(y.cfg, y.trials[i], confirm).value);
        (r.0, Some(r.1))
  }

  function Next(s: Study, confirm: bool): (Study, Option<Assignment>) {
    Grant(Yielded(s, confirm), confirm, PaperPending(s.trials, confirm))
  }

  // mark_running

  datatype MarkError = UnknownAssignment | AlreadyConsumed | BoundElsewhere | UnknownTrial

  /** The caller names another run or node than the one a running assignment is bound to. */
  predicate Conflicts(named: Option<string>, bound: Option<string>) {
    named.Some? && named.value != "" && bound.Some? && bound != named
  }

  function MarkRunning(s: Study, id: string, k: Key, run: Option<string>, node: Option<string>):
    (r: Result<Study, MarkError>)
    ensures r.Ok? ==> |r.value.trials| == |s.trials|
  {
    match FindKey(s.assignments, id, k)
    case None => Err(UnknownAssignment)
    case Some(j) =>
      var a := s.assignments[j];
      if Consumed(a.status) then Err(AlreadyConsumed)
      else if a.status.Running? && (Conflicts(run, a.runId) || Conflicts(node, a.nodeId)) then Err(BoundElsewhere)
      else if Find(s.trials, id).None? then Err(UnknownTrial)
      else
        var i := Find(s.trials, id).value;
        Ok(s.(assignments := s.assignments[j := a.(status := AssignmentStatus.Running,
                                                   runId := OrElse(a.runId, run),
                                                   nodeId := OrElse(a.nodeId, node))],
              trials := s.trials[i := s.trials[i].(status := TrialStatus.Running, pending := Some(k.stage))]))
  }

  // complete_evidence_only_trial and fail_matched_control

  function CloseFor(a: Assignment, id: string, node: string, succeeded: bool): Assignment {
    if a.trialId == id && Outstanding(a.status) then
      a.(status := if succeeded then AssignmentStatus.Completed else AssignmentStatus.Failed,
         nodeId := OrElse(a.nodeId, Some(node)))
    else a
  }

  function CompleteEvidenceOnly(s: Study, i: nat, node: string, why: string, succeeded: bool): (r: Study)
    requires i < |s.trials|
    ensures |r.trials| == |s.trials| && |r.assignments| == |s.assignments| && r.cfg == s.cfg
    ensures forall j :: 0 <= j < |s.assignments| ==>
      r.assignments[j] == CloseFor(s.assignments[j], s.trials[i].card.id, node, succeeded)
  {
    s.(assignments := seq(|s.assignments|, j requires 0 <= j < |s.assignments| =>
                            CloseFor(s.assignments[j], s.trials[i].card.id, node, succeeded)),
       trials := s.trials[i := s.trials[i].(
                            status := if succeeded then Eliminated else TrialStatus.Failed,
                            pending := None, reason := Text(why))])
  }

  predicate BoundToControl(t: Trial, protocol: string) {
    t.card.plan.Some? && t.card.plan.value.protocol == protocol
  }

  function BlockOnControl(t: Trial, protocol: string, cause: string): Trial {
    if BoundToControl(t, protocol) then
      t.(status := NeedsEvidence, pending := None, reason := ControlFailed(cause),
         card := t.card.(blockers := t.card.blockers + {"matched_control_failed:" + cause}))
    else t
  }

  function FailMatchedControl(s: Study, protocol: string, cause: string): (r: Study)
    ensures |r.trials| == |s.trials| && r.assignments == s.assignments && r.cfg == s.cfg
    ensures forall i :: 0 <= i < |s.trials| ==> r.trials[i] == BlockOnControl(s.trials[i], protocol, cause)
  {
    s.(trials := seq(|s.trials|, i requires 0 <= i < |s.trials| => BlockOnControl(s.trials[i], protocol, cause)))
  }
}
