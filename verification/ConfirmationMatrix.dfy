/**
  The seed matrix: what the validator accepts, what `create` builds, and which accepted matrices can
  ever be finished.
  */
module ConfirmationMatrix {
  import opened Options
  import opened ConfirmationSpec
  import opened ConfirmationSafety

  const DEFAULT_SEEDS: seq<int> := [42, 43, 44]

  /** The keys the validator expects: every role with every seed. */
  function ExpectedKeys(seeds: seq<int>): set<RunKey> {
    (set x | x in seeds :: RunKey(Baseline, x)) + (set x | x in seeds :: RunKey(Candidate, x))
  }

  function ActualKeys(runs: seq<ConfirmationRun>): set<RunKey> {
    set run | run in runs :: run.key
  }

  datatype MatrixError = UnmatchedSeeds | TooFewSeeds | WrongMatrix

  /** The state's validator; it compares sets of keys, so it cannot see a key that is listed twice. */
  function MatrixErrorOf(baseline: seq<int>, candidate: seq<int>, runs: seq<ConfirmationRun>): Option<MatrixError> {
    if baseline != candidate then Some(UnmatchedSeeds)
    else if |baseline| < 3 then Some(TooFewSeeds)
    else if ActualKeys(runs) != {} && ActualKeys(runs) != ExpectedKeys(baseline) then Some(WrongMatrix)
    else None
  }

  function PendingRuns(role: Role, seeds: seq<int>): (r: seq<ConfirmationRun>)
    ensures |r| == |seeds|
    ensures forall i :: 0 <= i < |seeds| ==> r[i] == ConfirmationRun(RunKey(role, seeds[i]), Pending, map[], None)
  {
    seq(|seeds|, i requires 0 <= i < |seeds| => ConfirmationRun(RunKey(role, seeds[i]), Pending, map[], None))
  }

  /** The runs `create` lists for the seeds asked for, or for the default ones. */
  function Created(seeds: seq<int>): seq<ConfirmationRun> {
    var used := if seeds == [] then DEFAULT_SEEDS else seeds;
    PendingRuns(Baseline, used) + PendingRuns(Candidate, used)
  }

  predicate Distinct(seeds: seq<int>) {
    forall i, j :: 0 <= i < j < |seeds| ==> seeds[i] != seeds[j]
  }

  /** Every list of at least three seeds is accepted with its own matrix, duplicates included. */
  lemma CreatedIsAccepted(seeds: seq<int>)
    requires 3 <= |seeds|
    ensures MatrixErrorOf(seeds, seeds, Created(seeds)) == None
  {
    var runs := Created(seeds);
    forall k: RunKey ensures k in ActualKeys(runs) <==> k in ExpectedKeys(seeds) {
      if k in ExpectedKeys(seeds) {
        var i :| 0 <= i < |seeds| && seeds[i] == k.seed;
        assert runs[if k.role.Baseline? then i else |seeds| + i].key == k;
      }
      if k in ActualKeys(runs) {
        var i :| 0 <= i < |runs| && runs[i].key == k;
        assert k.seed == seeds[if i < |seeds| then i else i - |seeds|];
      }
    }
    assert ActualKeys(runs) == ExpectedKeys(seeds);
  }

  /** What `create` lists: the baseline runs in seed order, then the candidate runs, all of them pending. */
  lemma CreatedInWords(seeds: seq<int>, i: nat)
    requires seeds != [] && i < |seeds|
    ensures |Created(seeds)| == 2 * |seeds|
    ensures Created(seeds)[i] == ConfirmationRun(RunKey(Baseline, seeds[i]), Pending, map[], None)
    ensures Created(seeds)[|seeds| + i] == ConfirmationRun(RunKey(Candidate, seeds[i]), Pending, map[], None)
    ensures Created([]) == Created([42, 43, 44])
  {
  }

  /**
    The validator in words: matched seed lists of at least three, and, if there are any runs, a run for
    every role and seed and none for any other.
    */
  lemma AcceptedExactly(baseline: seq<int>, candidate: seq<int>, runs: seq<ConfirmationRun>)
    ensures MatrixErrorOf(baseline, candidate, runs) == None <==>
      && baseline == candidate && |baseline| >= 3
      && (runs != [] ==>
            && (forall run <- runs :: run.key.seed in baseline)
            && (forall x, role: Role :: x in baseline ==> HasRun(runs, role, x)))
  {
    var expected, actual := ExpectedKeys(baseline), ActualKeys(runs);
    forall k: RunKey ensures k in actual <==> HasRun(runs, k.role, k.seed) {
      if run :| run in runs && run.key == k {
        assert RunKey(run.key.role, run.key.seed) == k;
      }
    }
    if runs != [] {
      assert runs[0].key in actual;
    }
    if actual == expected {
      forall run | run in runs ensures run.key.seed in baseline {
        assert run.key in actual;
      }
      forall x, role: Role | x in baseline ensures HasRun(runs, role, x) {
        assert RunKey(role, x) in expected;
      }
    }
    if (forall run <- runs :: run.key.seed in baseline)
       && (forall x, role: Role :: x in baseline ==> HasRun(runs, role, x)) {
      forall k: RunKey ensures k in actual <==> k in expected {
      }
      assert actual == expected;
    }
  }

  ghost predicate HasRun(runs: seq<ConfirmationRun>, role: Role, x: int) {
    exists run :: run in runs && run.key.role == role && run.key.seed == x
  }

  lemma CreatedFirstExactly(seeds: seq<int>)
    requires 3 <= |seeds|
    ensures OpenRunsAreFirst(Created(seeds)) <==> Distinct(seeds)
  {
    var runs, n := Created(seeds), |seeds|;
    if OpenRunsAreFirst(runs) {
      forall i, j | 0 <= i < j < n ensures seeds[i] != seeds[j] {
        assert runs[i].key != runs[j].key;
      }
    }
    if Distinct(seeds) {
      forall i, j | 0 <= i < j < |runs| && !runs[j].status.Completed? ensures runs[i].key != runs[j].key {
        assert runs[j].key.seed == seeds[if j < n then j else j - n];
        assert runs[i].key.seed == seeds[if i < n then i else i - n];
      }
    }
  }

  /** An open run that repeats an earlier key stays open through one invocation. */
  lemma RepeatStaysOpen(w: World, v: Invocation, i: nat, j: nat)
    requires i < j < |w.disk| && w.disk[i].key == w.disk[j].key
    ensures var e := Execute(w, v);
      |e.world.disk| == |w.disk| && e.world.disk[j] == w.disk[j] && e.world.disk[i].key == w.disk[j].key
  {
    ExecuteExtends(w, v);
    RunAllSparesRepeats(w.disk, KeysToExecute(w.disk), v.fates, i, j);
  }

  /**
    A matrix in which an open run repeats an earlier key is never finished: no later invocation returns
    normally, however many are tried and whatever they are given.
    */
  lemma {:induction false} RepeatsNeverFinish(w: World, vs: seq<Invocation>, v: Invocation)
    requires !OpenRunsAreFirst(w.disk)
    ensures !OpenRunsAreFirst(Play(w, vs).0.disk)
    ensures !Execute(Play(w, vs).0, v).outcome.Finished?
    decreases |vs|
  {
    if vs == [] {
      FinishesExactly(w, v);
    } else {
      hide Execute;
      var e := Execute(w, vs[0]);
      var i, j :| 0 <= i < j < |w.disk| && !w.disk[j].status.Completed? && w.disk[i].key == w.disk[j].key;
      RepeatStaysOpen(w, vs[0], i, j);
      assert e.world.disk[i].key == e.world.disk[j].key && !e.world.disk[j].status.Completed?;
      RepeatsNeverFinish(e.world, vs[1..], v);
    }
  }

  ghost predicate Finishable(w: World) {
    exists vs, v :: Execute(Play(w, vs).0, v).outcome.Finished?
  }

  /** A freshly created matrix can be finished if and only if its seeds are pairwise different. */
  lemma FinishableExactly(w: World, seeds: seq<int>)
    requires 3 <= |seeds| && w.disk == Created(seeds)
    requires !w.request.state.Rejected? && !w.request.state.Spent?
    ensures Finishable(w) <==> Distinct(seeds)
  {
    CreatedFirstExactly(seeds);
    if Distinct(seeds) {
      var r := w.request;
      var good := Returns(map[PRIMARY_METRIC := 0.0]);
      var approval := Approval(r.requestId, r.confirmationId, r.winnerId, true, r.gpuHours);
      var v := Invocation(Some(approval), seq(|KeysToExecute(w.disk)|, i => good), false);
      forall n | 0 <= n < |KeysToExecute(w.disk)| ensures Succeeds(FateAt(v.fates, n)) {
        assert FateAt(v.fates, n) == good;
      }
      FinishesExactly(w, v);
      assert Execute(Play(w, []).0, v).outcome.Finished?;
    }
    if Finishable(w) && !Distinct(seeds) {
      var vs, v :| Execute(Play(w, vs).0, v).outcome.Finished?;
      RepeatsNeverFinish(w, vs, v);
    }
  }

  /** A duplicate the validator accepts and no sequence of invocations ever finishes. */
  lemma AcceptedForNothing(r: Request)
    ensures MatrixErrorOf([1, 1, 2], [1, 1, 2], Created([1, 1, 2])) == None
    ensures !Finishable(World(Created([1, 1, 2]), r))
  {
    CreatedIsAccepted([1, 1, 2]);
    CreatedFirstExactly([1, 1, 2]);
    assert [1, 1, 2][0] == [1, 1, 2][1];
    var w := World(Created([1, 1, 2]), r);
    forall vs, v ensures !Execute(Play(w, vs).0, v).outcome.Finished? {
      RepeatsNeverFinish(w, vs, v);
    }
  }
}
