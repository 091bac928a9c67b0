/**
  What next_assignment hands out, said without its search: the first assignment that can be resumed, or
  else the most urgent allocation that any trial in scope wants.
  */
module AshaOffers {
  import opened Options
  import opened AshaTypes
  import opened Promotion
  import opened AshaSpec
  import opened AshaBookkeeping
  import opened AshaLadder
  import opened AshaSteps
  import opened AshaAllocation

  // What a trial wants

  /** The trial waits for exactly this allocation. */
  predicate Wants(cfg: Config, t: Trial, confirm: bool, k: Key) {
    match k.stage
    case Pilot3 => k.seed == 1 && t.status.Waiting? && t.pending == Some(Pilot3) && At(t, k).None?
    case Pilot10 => k.seed == 1 && t.status.PromotionPending? && t.pending == Some(Pilot10)
    case FullSeed1 => k.seed == 1 && confirm && t.status.FullPendingConfirmation?
    case FullConfirmation =>
      && confirm && t.status.ConfirmationPending? && 2 <= k.seed <= |cfg.seeds| && At(t, k).None?
      && forall m :: 2 <= m < k.seed ==> At(t, Key(FullConfirmation, m)).Some?
  }

  lemma ChoiceIsWanted(cfg: Config, t: Trial, confirm: bool, k: Key)
    ensures Choice(cfg, t, confirm) == Some(k) <==> Wants(cfg, t, confirm, k)
  {
    hide Lookup;
    if t.status.ConfirmationPending? && Wants(cfg, t, confirm, k) {
      var m := MissingSeedFrom(cfg, t, 2);
      assert k == Key(FullConfirmation, k.seed);
    }
  }

  /** Confirmation seeds first, then full seed 1, then pilot_3, then pilot_10. */
  function Urgency(st: Stage): nat {
    match st
    case FullConfirmation => 0
    case FullSeed1 => 1
    case Pilot3 => 2
    case Pilot10 => 3
  }

  /** Papers before natives, and registration order within a class. */
  predicate Sooner(xs: seq<Trial>, i: nat, j: nat)
    requires i < |xs| && j < |xs|
  {
    (xs[i].card.paper && !xs[j].card.paper) || (xs[i].card.paper == xs[j].card.paper && i <= j)
  }

  /** Nobody in scope wants anything more urgent than k, or as urgent sooner than trial i. */
  ghost predicate MostUrgent(cfg: Config, xs: seq<Trial>, confirm: bool, paperOnly: bool, i: nat, k: Key)
    requires i < |xs|
  {
    forall j, k' :: 0 <= j < |xs| && (paperOnly ==> xs[j].card.paper) && Wants(cfg, xs[j], confirm, k') ==>
      Urgency(k.stage) < Urgency(k'.stage) || (k.stage == k'.stage && Sooner(xs, i, j))
  }

  ghost predicate NobodyWants(cfg: Config, xs: seq<Trial>, confirm: bool, paperOnly: bool) {
    forall j, k :: 0 <= j < |xs| && (paperOnly ==> xs[j].card.paper) ==> !Wants(cfg, xs[j], confirm, k)
  }

  // The search finds it

  lemma {:induction false} ClassOrderAscends(xs: seq<Trial>, paper: bool)
    ensures forall p, q :: 0 <= p < q < |ClassOrder(xs, paper)| ==> ClassOrder(xs, paper)[p] < ClassOrder(xs, paper)[q]
  {
    if xs != [] {
      ClassOrderAscends(xs[..|xs| - 1], paper);
    }
  }

  lemma OrderIsSooner(xs: seq<Trial>, paperOnly: bool)
    ensures var o := Order(xs, paperOnly);
      forall p, q :: 0 <= p <= q < |o| ==> o[p] < |xs| && o[q] < |xs| && Sooner(xs, o[p], o[q])
  {
    ClassOrderAscends(xs, true);
    ClassOrderAscends(xs, false);
  }

  /** Trial j is offered something at stage st. */
  predicate OfferedAt(s: Study, j: nat, confirm: bool, st: Stage)
    requires j < |s.trials|
  {
    Choice(s.cfg, s.trials[j], confirm).Some? && Choice(s.cfg, s.trials[j], confirm).value.stage == st
  }

  /** The p-th in the order is the first one offered something at stage st. */
  ghost predicate FirstOffered(s: Study, order: seq<nat>, confirm: bool, st: Stage, p: nat)
    requires forall p :: 0 <= p < |order| ==> order[p] < |s.trials|
  {
    && p < |order| && OfferedAt(s, order[p], confirm, st)
    && forall q :: 0 <= q < p ==> !OfferedAt(s, order[q], confirm, st)
  }

  lemma {:induction false} FirstAtIsFirst(s: Study, order: seq<nat>, confirm: bool, st: Stage) returns (p: nat)
    requires forall p :: 0 <= p < |order| ==> order[p] < |s.trials|
    requires FirstAt(s, order, confirm, st).Some?
    ensures FirstOffered(s, order, confirm, st, p) && order[p] == FirstAt(s, order, confirm, st).value
  {
    hide Choice;
    if OfferedAt(s, order[0], confirm, st) {
      p := 0;
    } else {
      p := FirstAtIsFirst(s, order[1..], confirm, st);
      p := p + 1;
      assert order[p] == order[1..][p - 1];
      forall q | 0 <= q < p ensures !OfferedAt(s, order[q], confirm, st) {
        assert q > 0 ==> order[q] == order[1..][q - 1];
      }
    }
  }

  lemma FirstAtFinds(s: Study, order: seq<nat>, confirm: bool, st: Stage, j: nat)
    requires forall p :: 0 <= p < |order| ==> order[p] < |s.trials|
    requires j < |s.trials| && j in order && OfferedAt(s, j, confirm, st)
    ensures FirstAt(s, order, confirm, st).Some?
  {
    hide Choice;
  }

  lemma FirstIsSoonest(s: Study, paperOnly: bool, confirm: bool, st: Stage, j: nat)
    requires FirstAt.requires(s, Order(s.trials, paperOnly), confirm, st)
    requires FirstAt(s, Order(s.trials, paperOnly), confirm, st).Some?
    requires j < |s.trials| && (paperOnly ==> s.trials[j].card.paper) && OfferedAt(s, j, confirm, st)
    ensures Sooner(s.trials, FirstAt(s, Order(s.trials, paperOnly), confirm, st).value, j)
  {
    hide Choice, Order, FirstAt;
    var order := Order(s.trials, paperOnly);
    OrderInScope(s.trials, paperOnly);
    OrderIsSooner(s.trials, paperOnly);
    var p := FirstAtIsFirst(s, order, confirm, st);
    assert j in order;
    var q :| 0 <= q < |order| && order[q] == j;
    assert p <= q;
  }

  /** Whatever is wanted in scope is found at its stage, or something sooner is. */
  lemma WishIsSeen(s: Study, paperOnly: bool, confirm: bool, j: nat, k: Key)
    requires FirstAt.requires(s, Order(s.trials, paperOnly), confirm, k.stage)
    requires j < |s.trials| && (paperOnly ==> s.trials[j].card.paper) && Wants(s.cfg, s.trials[j], confirm, k)
    ensures FirstAt(s, Order(s.trials, paperOnly), confirm, k.stage).Some?
    ensures Sooner(s.trials, FirstAt(s, Order(s.trials, paperOnly), confirm, k.stage).value, j)
  {
    hide Choice, Order, Wants;
    OrderInScope(s.trials, paperOnly);
    ChoiceIsWanted(s.cfg, s.trials[j], confirm, k);
    assert j in Order(s.trials, paperOnly);
    FirstAtFinds(s, Order(s.trials, paperOnly), confirm, k.stage, j);
    FirstIsSoonest(s, paperOnly, confirm, k.stage, j);
  }

  /** The stage that is picked is the most urgent one at which anything is found. */
  lemma SelectStage(s: Study, order: seq<nat>, confirm: bool)
    requires forall p :: 0 <= p < |order| ==> order[p] < |s.trials|
    ensures var pick := Select(s, order, confirm);
      && (pick.None? ==> forall st: Stage :: FirstAt(s, order, confirm, st).None?)
      && (pick.Some? ==>
            var st := Choice(s.cfg, s.trials[pick.value], confirm).value.stage;
            && FirstAt(s, order, confirm, st) == pick
            && forall st': Stage :: Urgency(st') < Urgency(st) ==> FirstAt(s, order, confirm, st').None?)
  {
    hide Choice;
  }

  /** What is found at the most urgent stage is the most urgent wish. */
  lemma FoundIsMostUrgent(s: Study, paperOnly: bool, confirm: bool, i: nat, k: Key)
    requires i < |s.trials| && FirstAt.requires(s, Order(s.trials, paperOnly), confirm, k.stage)
    requires FirstAt(s, Order(s.trials, paperOnly), confirm, k.stage) == Some(i)
    requires forall st: Stage :: Urgency(st) < Urgency(k.stage) ==>
      FirstAt(s, Order(s.trials, paperOnly), confirm, st).None?
    ensures MostUrgent(s.cfg, s.trials, confirm, paperOnly, i, k)
  {
    hide Order, Wants, FirstAt, Sooner;
    forall j, k' | 0 <= j < |s.trials| && (paperOnly ==> s.trials[j].card.paper)
                   && Wants(s.cfg, s.trials[j], confirm, k')
      ensures Urgency(k.stage) < Urgency(k'.stage) || (k.stage == k'.stage && Sooner(s.trials, i, j))
    {
      WishIsSeen(s, paperOnly, confirm, j, k');
    }
  }

  lemma NothingFound(s: Study, paperOnly: bool, confirm: bool)
    requires FirstAt.requires(s, Order(s.trials, paperOnly), confirm, Pilot3)
    requires forall st: Stage :: FirstAt(s, Order(s.trials, paperOnly), confirm, st).None?
    ensures NobodyWants(s.cfg, s.trials, confirm, paperOnly)
  {
    hide Order, Wants, FirstAt, Sooner;
    forall j, k | 0 <= j < |s.trials| && (paperOnly ==> s.trials[j].card.paper)
      ensures !Wants(s.cfg, s.trials[j], confirm, k)
    {
      if Wants(s.cfg, s.trials[j], confirm, k) {
        WishIsSeen(s, paperOnly, confirm, j, k);
      }
    }
  }

  lemma PickIsInScope(s: Study, paperOnly: bool, confirm: bool)
    ensures var pick := Select(s, Order(s.trials, paperOnly), confirm);
      pick.Some? ==>
        var i := pick.value;
        i < |s.trials| && (paperOnly ==> s.trials[i].card.paper) && Choice(s.cfg, s.trials[i], confirm).Some?
  {
    hide Choice, Order, FirstAt;
    OrderInScope(s.trials, paperOnly);
  }

  /** The search finds the most urgent wish in scope, or that there is none. */
  lemma SelectExactly(s: Study, paperOnly: bool, confirm: bool)
    ensures var pick := Select(s, Order(s.trials, paperOnly), confirm);
      && (pick.None? <==> NobodyWants(s.cfg, s.trials, confirm, paperOnly))
      && (pick.Some? ==>
            var i := pick.value;
            && i < |s.trials| && (paperOnly ==> s.trials[i].card.paper) && Choice(s.cfg, s.trials[i], confirm).Some?
            && MostUrgent(s.cfg, s.trials, confirm, paperOnly, i, Choice(s.cfg, s.trials[i], confirm).value))
  {
    PickIsInScope(s, paperOnly, confirm);
    OrderInScope(s.trials, paperOnly);
    hide Choice, Order, FirstAt, MostUrgent, Wants, Select;
    var order := Order(s.trials, paperOnly);
    assert forall p :: 0 <= p < |order| ==> order[p] in order;
    var pick := Select(s, order, confirm);
    SelectStage(s, order, confirm);
    if pick.Some? {
      var k := Choice(s.cfg, s.trials[pick.value], confirm).value;
      ChoiceIsWanted(s.cfg, s.trials[pick.value], confirm, k);
      FoundIsMostUrgent(s, paperOnly, confirm, pick.value, k);
    } else {
      NothingFound(s, paperOnly, confirm);
    }
  }

  // The whole call

  /** A paper adapter still has work, by the statuses that count as work. */
  ghost predicate AdapterWork(xs: seq<Trial>, confirm: bool) {
    exists i :: 0 <= i < |xs| && xs[i].card.paper && HasWork(xs[i], confirm)
  }

  predicate HasWork(t: Trial, confirm: bool) {
    || t.status == TrialStatus.Waiting || t.status == TrialStatus.Running || t.status == PromotionPending
    || (confirm && (t.status == FullPendingConfirmation || t.status == ConfirmationPending))
  }

  /** The record belongs to a trial of the paper class. */
  ghost predicate OfPaper(xs: seq<Trial>, a: Assignment) {
    exists i :: 0 <= i < |xs| && xs[i].card.id == a.trialId && xs[i].card.paper
  }

  /** The record may be handed out again as it is. */
  ghost predicate Resumable(s: Study, a: Assignment, confirm: bool) {
    && (a.status == Issued || a.status == AssignmentStatus.Running)
    && (a.key.stage == FullSeed1 || a.key.stage == FullConfirmation ==> confirm)
    && (AdapterWork(s.trials, confirm) ==> OfPaper(s.trials, a))
  }

  ghost predicate FirstResumable(s: Study, confirm: bool, j: nat) {
    && j < |s.assignments| && Resumable(s, s.assignments[j], confirm)
    && forall m :: 0 <= m < j ==> !Resumable(s, s.assignments[m], confirm)
  }

  ghost predicate NothingResumable(s: Study, confirm: bool) {
    forall a <- s.assignments :: !Resumable(s, a, confirm)
  }

  lemma WorkIsPending(xs: seq<Trial>, confirm: bool)
    ensures AdapterWork(xs, confirm) <==> PaperPending(xs, confirm)
  {
    if PaperPending(xs, confirm) {
      var i :| 0 <= i < |xs| && xs[i].card.paper && RunnableStatus(xs[i].status, confirm);
      assert HasWork(xs[i], confirm);
    }
    if i :| 0 <= i < |xs| && xs[i].card.paper && HasWork(xs[i], confirm) {
      assert RunnableStatus(xs[i].status, confirm);
    }
  }

  lemma PaperIsOwner(xs: seq<Trial>, a: Assignment)
    requires UniqueIds(xs)
    ensures OfPaper(xs, a) <==> IsPaperId(xs, a.trialId)
  {
    if i :| 0 <= i < |xs| && xs[i].card.id == a.trialId && xs[i].card.paper {
      FindFirst(xs, i);
    }
  }

  /** Deferral leaves alone what may be resumed, and takes away what may not. */
  lemma ResumableAfterYield(s: Study, confirm: bool, j: nat)
    requires Valid(s) && j < |s.assignments|
    ensures var y := Yielded(s, confirm);
      var can := CanRecover(y.trials, y.assignments[j], confirm, PaperPending(s.trials, confirm));
      (can <==> Resumable(s, s.assignments[j], confirm)) && (can ==> y.assignments[j] == s.assignments[j])
  {
    hide TrialOk, DeferTrial;
    WorkIsPending(s.trials, confirm);
    PaperIsOwner(s.trials, s.assignments[j]);
    if PaperPending(s.trials, confirm) {
      hide PaperPending, RunnableStatus;
      DeferKeepsIds(s);
      FindSame(s.trials, DeferNative(s).trials, s.assignments[j].trialId);
      DeferKeepsPapers(s);
    }
  }

  lemma DeferKeepsPapers(s: Study)
    ensures forall i :: 0 <= i < |s.trials| ==> DeferNative(s).trials[i].card.paper == s.trials[i].card.paper
  {
  }

  lemma {:induction false} RecoverableIs(xs: seq<Trial>, asgs: seq<Assignment>, confirm: bool, paperOnly: bool, j: nat)
    requires j < |asgs| && CanRecover(xs, asgs[j], confirm, paperOnly)
    requires forall m :: 0 <= m < j ==> !CanRecover(xs, asgs[m], confirm, paperOnly)
    ensures Recoverable(xs, asgs, confirm, paperOnly) == Some(asgs[j])
  {
    hide CanRecover;
    if j > 0 {
      RecoverableIs(xs, asgs[1..], confirm, paperOnly, j - 1);
    }
  }

  /** Scope and wishes are the same before and after native work makes way. */
  lemma WishAfterYield(s: Study, confirm: bool, j: nat, k: Key)
    requires j < |s.trials| && (AdapterWork(s.trials, confirm) ==> s.trials[j].card.paper)
    ensures var y := Yielded(s, confirm);
      y.cfg == s.cfg && y.trials[j] == s.trials[j]
      && (Wants(y.cfg, y.trials[j], confirm, k) <==> Wants(s.cfg, s.trials[j], confirm, k))
  {
    hide Wants;
    WorkIsPending(s.trials, confirm);
  }

  /** The first record that may be resumed is returned as it is. */
  lemma NextResumes(s: Study, confirm: bool, j: nat)
    requires Valid(s) && FirstResumable(s, confirm, j)
    ensures Next(s, confirm) == (Yielded(s, confirm), Some(s.assignments[j]))
  {
    hide Valid, Resumable, CanRecover, Yielded;
    YieldedCount(s, confirm);
    forall m | 0 <= m <= j
      ensures var y := Yielded(s, confirm);
        var can := CanRecover(y.trials, y.assignments[m], confirm, PaperPending(s.trials, confirm));
        (can <==> Resumable(s, s.assignments[m], confirm)) && (can ==> y.assignments[m] == s.assignments[m])
    {
      ResumableAfterYield(s, confirm, m);
    }
    var y := Yielded(s, confirm);
    RecoverableIs(y.trials, y.assignments, confirm, PaperPending(s.trials, confirm), j);
  }

  lemma YieldedCount(s: Study, confirm: bool)
    ensures |Yielded(s, confirm).assignments| == |s.assignments| && |Yielded(s, confirm).trials| == |s.trials|
    ensures Yielded(s, confirm).cfg == s.cfg
  {
  }

  /** With nothing to resume, the call goes on to the ladder. */
  lemma NextGoesOn(s: Study, confirm: bool)
    requires Valid(s) && NothingResumable(s, confirm)
    ensures var y, p := Yielded(s, confirm), PaperPending(s.trials, confirm);
      Recoverable(y.trials, y.assignments, confirm, p).None?
  {
    hide Valid, Resumable, CanRecover, Yielded;
    var y, p := Yielded(s, confirm), PaperPending(s.trials, confirm);
    YieldedCount(s, confirm);
    RecoverableNone(y.trials, y.assignments, confirm, p);
    forall m | 0 <= m < |y.assignments| ensures !CanRecover(y.trials, y.assignments[m], confirm, p) {
      assert s.assignments[m] in s.assignments;
      ResumableAfterYield(s, confirm, m);
    }
  }

  /** Trial i gets key k: nobody in scope wants anything sooner. */
  ghost predicate Served(s: Study, confirm: bool, i: nat, k: Key) {
    && i < |s.trials| && (AdapterWork(s.trials, confirm) ==> s.trials[i].card.paper)
    && Wants(s.cfg, s.trials[i], confirm, k)
    && MostUrgent(s.cfg, s.trials, confirm, AdapterWork(s.trials, confirm), i, k)
  }

  ghost predicate ServesSomebody(s: Study, confirm: bool, a: Assignment) {
    exists i :: 0 <= i < |s.trials| && s.trials[i].card.id == a.trialId && Served(s, confirm, i, a.key)
  }

  /** What is wanted most urgently is the same before and after native work makes way. */
  lemma ServedAfterYield(s: Study, confirm: bool, i: nat, k: Key)
    requires i < |s.trials|
    requires var y, p := Yielded(s, confirm), AdapterWork(s.trials, confirm);
      && i < |y.trials| && (p ==> y.trials[i].card.paper)
      && Wants(y.cfg, y.trials[i], confirm, k) && MostUrgent(y.cfg, y.trials, confirm, p, i, k)
    ensures Served(s, confirm, i, k) && Yielded(s, confirm).trials[i].card == s.trials[i].card
  {
    hide Wants, Yielded, AdapterWork;
    var y, p := Yielded(s, confirm), AdapterWork(s.trials, confirm);
    YieldedCount(s, confirm);
    YieldedPapers(s, confirm);
    WishAfterYield(s, confirm, i, k);
    forall j, k' | 0 <= j < |s.trials| && (p ==> s.trials[j].card.paper) && Wants(s.cfg, s.trials[j], confirm, k')
      ensures Urgency(k.stage) < Urgency(k'.stage) || (k.stage == k'.stage && Sooner(s.trials, i, j))
    {
      WishAfterYield(s, confirm, j, k');
      assert Sooner(y.trials, i, j) == Sooner(s.trials, i, j);
    }
  }

  lemma YieldedPapers(s: Study, confirm: bool)
    ensures forall i :: 0 <= i < |s.trials| ==> Yielded(s, confirm).trials[i].card == s.trials[i].card
  {
  }

  lemma NobodyAfterYield(s: Study, confirm: bool)
    ensures var y, p := Yielded(s, confirm), AdapterWork(s.trials, confirm);
      NobodyWants(y.cfg, y.trials, confirm, p) <==> NobodyWants(s.cfg, s.trials, confirm, p)
  {
    hide Wants, Yielded, AdapterWork;
    var y, p := Yielded(s, confirm), AdapterWork(s.trials, confirm);
    YieldedCount(s, confirm);
    YieldedPapers(s, confirm);
    forall j, k | 0 <= j < |s.trials| && (p ==> s.trials[j].card.paper)
      ensures Wants(y.cfg, y.trials[j], confirm, k) <==> Wants(s.cfg, s.trials[j], confirm, k)
    {
      WishAfterYield(s, confirm, j, k);
    }
  }

  /** Nothing to resume: nothing is returned exactly when nobody in scope wants anything. */
  lemma NextServes(s: Study, confirm: bool)
    requires Valid(s) && NothingResumable(s, confirm)
    ensures Next(s, confirm).1.None? <==> NobodyWants(s.cfg, s.trials, confirm, AdapterWork(s.trials, confirm))
    ensures Next(s, confirm).1.Some? ==> ServesSomebody(s, confirm, Next(s, confirm).1.value)
  {
    NextGoesOn(s, confirm);
    var y, p := Yielded(s, confirm), PaperPending(s.trials, confirm);
    OrderInScope(y.trials, p);
    hide Valid, Wants, NothingResumable, Select, Order, Recoverable, Choice, MostUrgent, NobodyWants, Yielded, Served;
    var order := Order(y.trials, p);
    assert forall q :: 0 <= q < |order| ==> order[q] in order;
    WorkIsPending(s.trials, confirm);
    NobodyAfterYield(s, confirm);
    SelectExactly(y, p, confirm);
    YieldedCount(s, confirm);
    hide AdapterWork, PaperPending;
    var pick := Select(y, Order(y.trials, p), confirm);
    if pick.Some? {
      var k := Choice(y.cfg, y.trials[pick.value], confirm).value;
      ChoiceIsWanted(y.cfg, y.trials[pick.value], confirm, k);
      ChoiceSeed(y.cfg, y.trials[pick.value], confirm);
      ServedAfterYield(s, confirm, pick.value, k);
      IssuedFor(y, pick.value, k);
    }
  }

  lemma IssuedFor(s: Study, i: nat, k: Key)
    requires i < |s.trials| && 1 <= k.seed <= |s.cfg.seeds|
    ensures Issue(s, i, k).1.trialId == s.trials[i].card.id && Issue(s, i, k).1.key == k
  {
  }

  // What the call leaves behind

  /** The trial waits for the rung st, with nothing claimed. */
  predicate StandsAt(t: Trial, st: Stage) {
    && t.pending == Some(st)
    && match st
       case Pilot3 => t.status == TrialStatus.Waiting
       case Pilot10 => t.status == PromotionPending
       case FullSeed1 => t.status == FullPendingConfirmation
       case FullConfirmation => t.status == ConfirmationPending
  }

  /** An assignment of the trial is issued or running. */
  predicate WorkedOn(a: Assignment, t: Trial) {
    a.trialId == t.card.id && (a.status == Issued || a.status == AssignmentStatus.Running)
  }

  /** r is t put back to the rung of one of its open assignments. */
  ghost predicate PutBack(asgs: seq<Assignment>, t: Trial, r: Trial) {
    && r == t.(status := r.status, pending := r.pending, deferredForPaper := true)
    && exists a <- asgs :: WorkedOn(a, t) && StandsAt(r, a.key.stage)
  }

  ghost predicate MakesWay(s: Study, confirm: bool, t: Trial) {
    AdapterWork(s.trials, confirm) && !t.card.paper && HasOpen(s.assignments, t)
  }

  ghost predicate HasOpen(asgs: seq<Assignment>, t: Trial) {
    exists a <- asgs :: WorkedOn(a, t)
  }

  lemma OpenIsOutstanding(asgs: seq<Assignment>, t: Trial)
    ensures HasOpen(asgs, t) <==> LastOutstanding(asgs, t.card.id).Some?
    ensures HasOpen(asgs, t) ==> exists a <- asgs ::
      WorkedOn(a, t) && a.key.stage == LastOutstanding(asgs, t.card.id).value
  {
    LastOutstandingNone(asgs, t.card.id);
    if LastOutstanding(asgs, t.card.id).Some? {
      LastOutstandingSlot(asgs, t.card.id);
      var j :| 0 <= j < |asgs| && OutstandingAt(asgs[j], t.card.id, LastOutstanding(asgs, t.card.id).value);
      assert asgs[j] in asgs && WorkedOn(asgs[j], t);
    }
  }

  lemma DeferredIsPutBack(asgs: seq<Assignment>, t: Trial)
    ensures var r := DeferTrial(asgs, t);
      if !t.card.paper && HasOpen(asgs, t) then PutBack(asgs, t, r) else r == t
  {
    OpenIsOutstanding(asgs, t);
    hide HasOpen, LastOutstanding;
  }

  lemma NextKeepsYielded(s: Study, confirm: bool)
    ensures var r := Next(s, confirm).0; r.cfg == s.cfg && r.trials == Yielded(s, confirm).trials
  {
    hide Yielded, Select, Order, Recoverable;
    YieldedCount(s, confirm);
  }

  /** Only native trials with open assignments are moved, and only to make way for paper work. */
  lemma NextLeavesTrial(s: Study, confirm: bool, i: nat)
    requires i < |s.trials|
    ensures var r := Next(s, confirm).0;
      && r.cfg == s.cfg && |r.trials| == |s.trials|
      && (if MakesWay(s, confirm, s.trials[i]) then PutBack(s.assignments, s.trials[i], r.trials[i])
          else r.trials[i] == s.trials[i])
  {
    hide Next, DeferTrial, PutBack, HasOpen;
    WorkIsPending(s.trials, confirm);
    NextKeepsYielded(s, confirm);
    DeferredIsPutBack(s.assignments, s.trials[i]);
  }

  /** A record is put aside, handed out again, or left as it is. */
  lemma NextLeavesRecord(s: Study, confirm: bool, j: nat)
    requires Valid(s) && j < |s.assignments|
    ensures var r, a := Next(s, confirm), s.assignments[j];
      && |s.assignments| <= |r.0.assignments| <= |s.assignments| + 1
      && (|r.0.assignments| > |s.assignments| ==> r.1 == Some(r.0.assignments[|s.assignments|]))
      && var b := r.0.assignments[j];
         if AdapterWork(s.trials, confirm) && (a.status == Issued || a.status == AssignmentStatus.Running)
            && !OfPaper(s.trials, a)
         then b == a.(status := Deferred)
         else b == a || (a.status == Deferred && r.1 == Some(b)
                         && b == a.(status := Issued, runId := None, nodeId := None))
  {
    var y, p := Yielded(s, confirm), PaperPending(s.trials, confirm);
    var a, b := s.assignments[j], y.assignments[j];
    WorkIsPending(s.trials, confirm);
    PaperIsOwner(s.trials, a);
    assert b == if p && Outstanding(a.status) && !OfPaper(s.trials, a) then a.(status := Deferred) else a;
    YieldedCount(s, confirm);
    if p && Next(s, confirm).1.Some? {
      PaperFirst(s, confirm);
    }
    hide AdapterWork, PaperPending, OfPaper, Yielded, DeferNative, Valid, Grant;
    GrantLeavesRecord(y, confirm, p, j);
  }

  lemma GrantLeavesRecord(y: Study, confirm: bool, p: bool, j: nat)
    requires j < |y.assignments|
    ensures var r, a := Grant(y, confirm, p), y.assignments[j];
      && |y.assignments| <= |r.0.assignments| <= |y.assignments| + 1
      && (|r.0.assignments| > |y.assignments| ==> r.1 == Some(r.0.assignments[|y.assignments|]))
      && (|| r.0.assignments[j] == a
          || (a.status == Deferred && r.1 == Some(r.0.assignments[j])
              && r.0.assignments[j] == a.(status := Issued, runId := None, nodeId := None)))
  {
    hide Choice, Order, Recoverable, NewAssignment, FindKey, FirstAt;
    OrderInRange(y.trials, p);
    var order := Order(y.trials, p);
    if Recoverable(y.trials, y.assignments, confirm, p).None? {
      var pick := Select(y, order, confirm);
      if pick.Some? {
        ChoiceSeed(y.cfg, y.trials[pick.value], confirm);
        FindKeyPlace(y.assignments, y.trials[pick.value].card.id, Choice(y.cfg, y.trials[pick.value], confirm).value);
      }
    }
  }

  lemma OrderInRange(xs: seq<Trial>, paperOnly: bool)
    ensures forall q :: 0 <= q < |Order(xs, paperOnly)| ==> Order(xs, paperOnly)[q] < |xs|
  {
    OrderInScope(xs, paperOnly);
  }

  lemma FindKeyPlace(asgs: seq<Assignment>, id: string, k: Key)
    ensures FindKey(asgs, id, k).Some? ==> FindKey(asgs, id, k).value < |asgs|
  {
  }
}
