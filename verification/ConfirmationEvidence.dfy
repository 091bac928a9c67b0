/**
  Where the metrics of a confirmation come from: a completed run holds exactly what the executor returned
  for it, and a finished matrix has one returned result for each of its runs.
  */
module ConfirmationEvidence {
  import opened Options
  import opened ConfirmationSpec
  import opened ConfirmationSafety
  import opened ConfirmationPlays
  import opened ConfirmationMatrix

  /** One call of the executor and what became of it. */
  datatype Call = Call(key: RunKey, fate: Fate)

  /** The executor returned these metrics, the primary one among them. */
  predicate Returned(c: Call, m: Metrics) {
    c.fate == Returns(m) && "map50_95" in m
  }

  predicate Succeeded(c: Call) {
    c.fate.Returns? && "map50_95" in c.fate.metrics
  }

  function Outcome(c: Call): Metrics {
    if c.fate.Returns? then c.fate.metrics else map[]
  }

  /** The calls of an execution loop, in order, each with its fate. */
  function CallsOf(disk: seq<ConfirmationRun>, keys: seq<RunKey>, fates: seq<Fate>): seq<Call>
    decreases |keys|
  {
    if keys == [] then []
    else
      var a := Attempt(disk, keys[0], FateAt(fates, 0));
      var own := if a.calls == [] then [] else [Call(keys[0], FateAt(fates, 0))];
      if a.stop.Some? then own else own + CallsOf(a.disk, keys[1..], Later(fates))
  }

  function InvocationCalls(w: World, v: Invocation): seq<Call> {
    if Allows(w.request, v.approval) then CallsOf(w.disk, PlanFor(w.disk).execute, v.fates) else []
  }

  /** The calls of a whole sequence of invocations. */
  function Transcript(w: World, vs: seq<Invocation>): seq<Call>
    decreases |vs|
  {
    if vs == [] then [] else InvocationCalls(w, vs[0]) + Transcript(Execute(w, vs[0]).world, vs[1..])
  }

  function KeysCalled(cs: seq<Call>): seq<RunKey> {
    seq(|cs|, i requires 0 <= i < |cs| => cs[i].key)
  }

  /** What the first run with this key holds. */
  predicate Holds(runs: seq<ConfirmationRun>, k: RunKey, m: Metrics) {
    FindRun(runs, k).Some? && runs[FindRun(runs, k).value].status == Completed
    && runs[FindRun(runs, k).value].metrics == m
  }

  // One attempt

  /** What one attempt persists: the first run with its key, as its fate has it, and nothing else. */
  lemma AttemptPersists(disk: seq<ConfirmationRun>, k: RunKey, fate: Fate)
    ensures var r, found := Attempt(disk, k, fate), FindRun(disk, k);
      if fate == DiesBeforeClaim || found == None || disk[found.value].status == Completed then
        r.calls == [] && r.disk == disk && r.stop != None
      else
        var i := found.value;
        && r.calls == [k] && r.disk == disk[i := r.disk[i]] && r.disk[i].key == k
        && match fate
           case DiesDuringRun =>
             r.stop == Some(Died) && r.disk[i] == disk[i].(status := Running, error := None)
           case Raises(cause) =>
             r.stop == Some(RunError(k)) && r.disk[i] == disk[i].(status := Failed, error := Some(cause))
           case Returns(m) =>
             if "map50_95" in m then
               r.stop == None && r.disk[i] == ConfirmationRun(k, Completed, m, None)
             else
               r.stop == Some(RunError(k))
               && r.disk[i] == disk[i].(status := Failed, error := Some("missing primary metric"))
           case _ => true
  {
    hide FindRun;
    if MarkRunning(disk, k).Ok? {
      ClaimExtends(disk, k);
    }
  }

  // Evidence for what is persisted

  /** Some call returned what this run holds. */
  ghost predicate HasSource(cs: seq<Call>, run: ConfirmationRun) {
    exists c <- cs :: c.key == run.key && Returned(c, run.metrics)
  }

  /**
    Going from one persisted matrix to a later one by these calls: completed runs stay; a run that becomes
    completed holds what a call for its key returned; whatever was returned is held; and a key is never
    called again once a call for it has succeeded.
    */
  ghost predicate Evidenced(before: seq<ConfirmationRun>, after: seq<ConfirmationRun>, cs: seq<Call>) {
    && Extends(before, after)
    && (forall i :: 0 <= i < |before| && before[i].status != Completed && after[i].status == Completed ==>
          HasSource(cs, after[i]))
    && (forall c <- cs :: Succeeded(c) ==> Holds(after, c.key, Outcome(c)))
    && (forall c <- cs :: !Done(before, c.key))
    && (forall p, q :: 0 <= p < q < |cs| && Succeeded(cs[p]) ==> cs[p].key != cs[q].key)
  }

  lemma AttemptEvidence(disk: seq<ConfirmationRun>, k: RunKey, fate: Fate)
    ensures var a := Attempt(disk, k, fate);
      Evidenced(disk, a.disk, if a.calls == [] then [] else [Call(k, fate)])
  {
    var a := Attempt(disk, k, fate);
    AttemptExtends(disk, k, fate);
    AttemptPersists(disk, k, fate);
    hide Attempt, FindRun;
    var cs := if a.calls == [] then [] else [Call(k, fate)];
    if a.calls != [] {
      assert cs[0] == Call(k, fate) && Call(k, fate) in cs;
      SameFind(disk, a.disk, k);
    }
  }

  lemma HoldsStays(xs: seq<ConfirmationRun>, ys: seq<ConfirmationRun>, k: RunKey, m: Metrics)
    requires Extends(xs, ys) && Holds(xs, k, m)
    ensures Holds(ys, k, m)
  {
    SameFind(xs, ys, k);
  }

  lemma SourceStays(cs: seq<Call>, ds: seq<Call>, run: ConfirmationRun)
    requires HasSource(cs, run) || HasSource(ds, run)
    ensures HasSource(cs + ds, run)
  {
    if c :| c in cs && c.key == run.key && Returned(c, run.metrics) {
      assert c in cs + ds;
    } else {
      var c :| c in ds && c.key == run.key && Returned(c, run.metrics);
      assert c in cs + ds;
    }
  }

  lemma EvidenceComposes(a: seq<ConfirmationRun>, b: seq<ConfirmationRun>, c: seq<ConfirmationRun>,
                         xs: seq<Call>, ys: seq<Call>)
    requires Evidenced(a, b, xs) && Evidenced(b, c, ys)
    ensures Evidenced(a, c, xs + ys)
  {
    hide Holds, Done, Succeeded, HasSource;
    var cs := xs + ys;
    ExtendsTransitive(a, b, c);
    forall i | 0 <= i < |a| && a[i].status != Completed && c[i].status == Completed ensures HasSource(cs, c[i]) {
      if b[i].status == Completed {
        assert c[i] == b[i];
      }
      SourceStays(xs, ys, c[i]);
    }
    forall d | d in cs && Succeeded(d) ensures Holds(c, d.key, Outcome(d)) {
      if d in xs {
        HoldsStays(b, c, d.key, Outcome(d));
      }
    }
    forall d | d in cs ensures !Done(a, d.key) {
      if Done(a, d.key) {
        DoneStays(a, b, d.key);
      }
    }
    forall p, q | 0 <= p < q < |cs| && Succeeded(cs[p]) ensures cs[p].key != cs[q].key {
      if p < |xs| <= q {
        assert cs[p] == xs[p] && cs[q] == ys[q - |xs|];
        HeldIsDone(b, xs[p].key, Outcome(xs[p]));
      }
    }
  }

  lemma HeldIsDone(runs: seq<ConfirmationRun>, k: RunKey, m: Metrics)
    requires Holds(runs, k, m)
    ensures Done(runs, k)
  {
  }

  lemma EmptyLoop(disk: seq<ConfirmationRun>, fates: seq<Fate>)
    ensures Evidenced(disk, RunAll(disk, [], fates).disk, CallsOf(disk, [], fates))
    ensures KeysCalled(CallsOf(disk, [], fates)) == RunAll(disk, [], fates).calls
  {
    NoCallsNoChange(disk);
  }

  lemma OneCall(k: RunKey, fate: Fate)
    ensures KeysCalled([Call(k, fate)]) == [k] && KeysCalled([]) == []
  {
  }

  lemma KeysJoined(xs: seq<Call>, ys: seq<Call>)
    ensures KeysCalled(xs + ys) == KeysCalled(xs) + KeysCalled(ys)
  {
  }

  /** The loop is its first call followed by the rest. */
  lemma LoopUnfolds(disk: seq<ConfirmationRun>, keys: seq<RunKey>, fates: seq<Fate>)
    requires keys != []
    ensures var a := Attempt(disk, keys[0], FateAt(fates, 0));
      var own := if a.calls == [] then [] else [Call(keys[0], FateAt(fates, 0))];
      var r, rest := RunAll(disk, keys, fates), RunAll(a.disk, keys[1..], Later(fates));
      && r.disk == (if a.stop.Some? then a.disk else rest.disk)
      && r.calls == (if a.stop.Some? then a.calls else a.calls + rest.calls)
      && CallsOf(disk, keys, fates) ==
         if a.stop.Some? then own else own + CallsOf(a.disk, keys[1..], Later(fates))
  {
    hide Attempt, FateAt, Later;
  }

  lemma {:induction false} LoopEvidence(disk: seq<ConfirmationRun>, keys: seq<RunKey>, fates: seq<Fate>)
    ensures Evidenced(disk, RunAll(disk, keys, fates).disk, CallsOf(disk, keys, fates))
    ensures KeysCalled(CallsOf(disk, keys, fates)) == RunAll(disk, keys, fates).calls
    decreases |keys|
  {
    hide *;
    if keys == [] {
      EmptyLoop(disk, fates);
    } else {
      LoopUnfolds(disk, keys, fates);
      var a := Attempt(disk, keys[0], FateAt(fates, 0));
      AttemptEvidence(disk, keys[0], FateAt(fates, 0));
      AttemptExtends(disk, keys[0], FateAt(fates, 0));
      OneCall(keys[0], FateAt(fates, 0));
      if a.stop.None? {
        KeysJoined([Call(keys[0], FateAt(fates, 0))], CallsOf(a.disk, keys[1..], Later(fates)));
        LoopEvidence(a.disk, keys[1..], Later(fates));
        EvidenceComposes(disk, a.disk, RunAll(a.disk, keys[1..], Later(fates)).disk,
                         [Call(keys[0], FateAt(fates, 0))], CallsOf(a.disk, keys[1..], Later(fates)));
      }
    }
  }

  lemma NoCallsNoChange(disk: seq<ConfirmationRun>)
    ensures Evidenced(disk, disk, [])
  {
  }

  lemma InvocationEvidence(w: World, v: Invocation)
    ensures Evidenced(w.disk, Execute(w, v).world.disk, InvocationCalls(w, v))
    ensures KeysCalled(InvocationCalls(w, v)) == Execute(w, v).calls
  {
    hide Evidenced, RunAll, CallsOf, PlanFor;
    if Allows(w.request, v.approval) {
      LoopEvidence(w.disk, PlanFor(w.disk).execute, v.fates);
    } else {
      NoCallsNoChange(w.disk);
    }
  }

  /**
    Over any sequence of executes and resumes, from any matrix: every run that becomes completed holds
    exactly the metrics that one of the executor's calls for its key returned, every returned result is
    held, and the transcript is of exactly the calls that were made.
    */
  lemma {:induction false} PlayEvidence(w: World, vs: seq<Invocation>)
    ensures Evidenced(w.disk, Play(w, vs).0.disk, Transcript(w, vs))
    ensures KeysCalled(Transcript(w, vs)) == Play(w, vs).1
    decreases |vs|
  {
    hide Evidenced, Execute, InvocationCalls;
    if vs == [] {
      NoCallsNoChange(w.disk);
    } else {
      var e := Execute(w, vs[0]);
      InvocationEvidence(w, vs[0]);
      PlayEvidence(e.world, vs[1..]);
      EvidenceComposes(w.disk, e.world.disk, Play(e.world, vs[1..]).0.disk,
                       InvocationCalls(w, vs[0]), Transcript(e.world, vs[1..]));
    }
  }

  // A matrix that starts from nothing

  ghost predicate NothingCompleted(runs: seq<ConfirmationRun>) {
    forall i :: 0 <= i < |runs| ==> runs[i].status != Completed
  }

  lemma CreatedIsOpen(seeds: seq<int>)
    ensures NothingCompleted(Created(seeds)) && Created(seeds) != []
  {
  }

  /** From a created matrix, every completed run has the primary metric. */
  lemma CompletedHasPrimary(w: World, vs: seq<Invocation>, i: nat)
    requires NothingCompleted(w.disk) && i < |w.disk| == |Play(w, vs).0.disk|
    requires Play(w, vs).0.disk[i].status == Completed
    ensures "map50_95" in Play(w, vs).0.disk[i].metrics
  {
    hide Play, Transcript;
    PlayEvidence(w, vs);
  }

  /** The calls that returned a result, in order. */
  function Results(cs: seq<Call>): seq<Call> {
    if cs == [] then [] else (if Succeeded(cs[0]) then [cs[0]] else []) + Results(cs[1..])
  }

  lemma {:induction false} ResultsAre(cs: seq<Call>)
    ensures forall c :: c in Results(cs) <==> c in cs && Succeeded(c)
  {
    if cs != [] {
      ResultsAre(cs[1..]);
      assert cs == [cs[0]] + cs[1..];
    }
  }

  ghost predicate DistinctKeys(ks: seq<RunKey>) {
    forall p, q :: 0 <= p < q < |ks| ==> ks[p] != ks[q]
  }

  lemma {:induction false} ResultsAreDistinct(cs: seq<Call>)
    requires forall p, q :: 0 <= p < q < |cs| && Succeeded(cs[p]) ==> cs[p].key != cs[q].key
    ensures DistinctKeys(KeysCalled(Results(cs)))
  {
    hide Succeeded;
    if cs != [] {
      ResultsAreDistinct(cs[1..]);
      ResultsAre(cs[1..]);
      var rest := Results(cs[1..]);
      forall p | 0 <= p < |rest| && Succeeded(cs[0]) ensures rest[p].key != cs[0].key {
        assert rest[p] in cs[1..];
        var q :| 0 <= q < |cs[1..]| && cs[1..][q] == rest[p];
        assert cs[q + 1] == rest[p];
      }
      if Succeeded(cs[0]) {
        DistinctCons(cs[0], rest);
        assert Results(cs) == [cs[0]] + rest;
      } else {
        assert Results(cs) == [] + rest == rest;
      }
    }
  }

  lemma DistinctCons(c: Call, rest: seq<Call>)
    requires DistinctKeys(KeysCalled(rest)) && forall p :: 0 <= p < |rest| ==> rest[p].key != c.key
    ensures DistinctKeys(KeysCalled([c] + rest))
  {
    assert KeysCalled([c] + rest) == [c.key] + KeysCalled(rest);
  }

  lemma {:induction false} KeysAre(runs: seq<ConfirmationRun>)
    ensures |Keys(runs)| == |runs| && forall i :: 0 <= i < |runs| ==> Keys(runs)[i] == runs[i].key
  {
    if runs != [] {
      KeysAre(runs[..|runs| - 1]);
    }
  }

  lemma DistinctOnce(ks: seq<RunKey>, k: RunKey)
    requires DistinctKeys(ks)
    ensures multiset(ks)[k] == if k in ks then 1 else 0
  {
    if k in ks {
      var p :| 0 <= p < |ks| && ks[p] == k;
      assert ks == ks[..p] + [k] + ks[p + 1..];
      assert k !in ks[..p] && k !in ks[p + 1..];
    }
  }

  lemma SameDistinctKeys(xs: seq<RunKey>, ys: seq<RunKey>)
    requires DistinctKeys(xs) && DistinctKeys(ys) && forall k :: k in xs <==> k in ys
    ensures multiset(xs) == multiset(ys)
  {
    forall k ensures multiset(xs)[k] == multiset(ys)[k] {
      DistinctOnce(xs, k);
      DistinctOnce(ys, k);
    }
  }

  /**
    A normal return, after any number of failures and deaths, from a matrix that started open: there is
    exactly one returned result per run of the matrix, and each run holds the result returned for it.
    */
  lemma OneResultPerRun(w: World, vs: seq<Invocation>, v: Invocation)
    requires NothingCompleted(w.disk) && Execute(Play(w, vs).0, v).outcome.Finished?
    ensures var results := Results(Transcript(w, vs + [v]));
      var disk := Execute(Play(w, vs).0, v).world.disk;
      && multiset(KeysCalled(results)) == multiset(Keys(w.disk))
      && forall c <- results :: Holds(disk, c.key, Outcome(c))
  {
    hide Execute, Play, Transcript, Evidenced, Holds, Results, Succeeded;
    var all := vs + [v];
    PlayLast(w, vs, v);
    PlayEvidence(w, all);
    FinishedMeansComplete(Play(w, vs).0, v);
    FinishedWasSound(w, vs, v);
    MatrixEvidence(w.disk, Play(w, all).0.disk, Transcript(w, all));
  }

  lemma {:induction false} PlayLast(w: World, vs: seq<Invocation>, v: Invocation)
    ensures Play(w, vs + [v]).0 == Execute(Play(w, vs).0, v).world
    decreases |vs|
  {
    hide Execute;
    if vs == [] {
      assert [] + [v] == [v] && [v][1..] == [];
      assert Play(Execute(w, v).world, []).0 == Execute(w, v).world;
    } else {
      assert (vs + [v])[0] == vs[0] && (vs + [v])[1..] == vs[1..] + [v];
      PlayLast(Execute(w, vs[0]).world, vs[1..], v);
    }
  }

  /** Only a matrix without repeated open runs is finished, so one that starts open has distinct keys. */
  lemma FinishedWasSound(w: World, vs: seq<Invocation>, v: Invocation)
    requires NothingCompleted(w.disk) && Execute(Play(w, vs).0, v).outcome.Finished?
    ensures DistinctKeys(Keys(w.disk))
  {
    hide Execute, Play;
    if !OpenRunsAreFirst(w.disk) {
      RepeatsNeverFinish(w, vs, v);
    }
    KeysAre(w.disk);
  }

  lemma ResultsCoverKey(before: seq<ConfirmationRun>, after: seq<ConfirmationRun>, cs: seq<Call>, k: RunKey)
    requires NothingCompleted(before) && AllCompleted(after) && Evidenced(before, after, cs)
    ensures k in KeysCalled(Results(cs)) <==> k in Keys(before)
  {
    hide Holds, Done, FindRun, Results;
    var results := Results(cs);
    ResultsAre(cs);
    KeysAre(before);
    if k in Keys(before) {
      var i :| 0 <= i < |before| && before[i].key == k;
      assert HasSource(cs, after[i]);
      var c :| c in cs && c.key == k && Returned(c, after[i].metrics);
      assert c in results;
      var p :| 0 <= p < |results| && results[p] == c;
      assert KeysCalled(results)[p] == k;
    }
    if k in KeysCalled(results) {
      var p :| 0 <= p < |results| && KeysCalled(results)[p] == k;
      assert results[p] in cs && results[p] in results;
      HeldKey(before, after, k, Outcome(results[p]));
    }
  }

  lemma MatrixEvidence(before: seq<ConfirmationRun>, after: seq<ConfirmationRun>, cs: seq<Call>)
    requires NothingCompleted(before) && AllCompleted(after) && Evidenced(before, after, cs)
    requires DistinctKeys(Keys(before))
    ensures multiset(KeysCalled(Results(cs))) == multiset(Keys(before))
    ensures forall c <- Results(cs) :: Holds(after, c.key, Outcome(c))
  {
    hide Holds, Done;
    var results := Results(cs);
    ResultsAre(cs);
    ResultsAreDistinct(cs);
    KeysAre(before);
    forall k: RunKey ensures k in KeysCalled(results) <==> k in Keys(before) {
      ResultsCoverKey(before, after, cs, k);
    }
    SameDistinctKeys(KeysCalled(results), Keys(before));
  }

  lemma HeldKey(before: seq<ConfirmationRun>, after: seq<ConfirmationRun>, k: RunKey, m: Metrics)
    requires Extends(before, after) && Holds(after, k, m)
    ensures k in Keys(before)
  {
    KeysAre(before);
    assert Keys(before)[FindRun(after, k).value] == k;
  }

  // The order of execution

  /** The positions of the runs that are not completed, in matrix order. */
  ghost predicate OpenPositions(runs: seq<ConfirmationRun>, ps: seq<nat>) {
    && (forall p, q :: 0 <= p < q < |ps| ==> ps[p] < ps[q])
    && (forall p :: 0 <= p < |ps| ==> ps[p] < |runs| && runs[ps[p]].status != Completed)
    && (forall i: nat :: i < |runs| && runs[i].status != Completed ==> i in ps)
  }

  /** The runs that are not completed are executed in matrix order. */
  lemma {:induction false} ExecutesInOrder(runs: seq<ConfirmationRun>) returns (ps: seq<nat>)
    ensures OpenPositions(runs, ps) && |PlanFor(runs).execute| == |ps|
    ensures forall p :: 0 <= p < |ps| ==> PlanFor(runs).execute[p] == runs[ps[p]].key
  {
    ps := [];
    if runs != [] {
      var n := |runs| - 1;
      ps := ExecutesInOrder(runs[..n]);
      forall i: nat | i < n && runs[i].status != Completed ensures i in ps {
        assert runs[..n][i] == runs[i];
      }
      if runs[n].status != Completed {
        ps := ps + [n];
      }
    }
  }
}
