/** The allocation itself: the round-robin loop over per-family queues, and the ranked, cut cohort. */
module BudgetOptimizer {
  import opened Options
  import opened Collections
  import opened StableSort
  import opened BudgetOrder

  // The state of a round: families in `turn` before position j have been served r + 1 times, the rest
  // of `turn` r times, and every other family has run out after at most r.

  function Served(all: seq<Scored>, turn: seq<string>, j: nat, r: nat, f: string): nat
    requires j <= |turn|
  {
    if f in turn[..j] then r + 1 else if f in turn[j..] then r else Count(all, f)
  }

  ghost predicate Distinct(fs: seq<string>) {
    forall p, q :: 0 <= p < q < |fs| ==> fs[p] != fs[q]
  }

  /** fs lists some families of `all` without repetition, in order of first appearance. */
  ghost predicate InFamilyOrder(all: seq<Scored>, fs: seq<string>) {
    && Distinct(fs)
    && forall a, b, p, q |
         0 <= a < b < |Families(all)| && 0 <= p < |fs| && 0 <= q < |fs|
         && fs[p] == Families(all)[a] && fs[q] == Families(all)[b] :: p < q
  }

  /** `turn` is what is left to serve after r full rounds. */
  ghost predicate Turn(all: seq<Scored>, turn: seq<string>, r: nat) {
    && InFamilyOrder(all, turn)
    && (forall f <- turn :: Count(all, f) > r)
    && (forall f :: f !in turn ==> Count(all, f) <= r)
  }

  ghost predicate ServedSoFar(all: seq<Scored>, ordered: seq<Scored>, turn: seq<string>, j: nat, r: nat)
    requires j <= |turn|
  {
    forall f :: ServedFor(all, ordered, f, Served(all, turn, j, r, f))
  }

  /** Of family f exactly the first c selections have been ordered. */
  ghost predicate ServedFor(all: seq<Scored>, ordered: seq<Scored>, f: string, c: nat) {
    c <= Count(all, f) && OfFamily(ordered, f) == OfFamily(all, f)[..c]
  }

  lemma TurnPosition(turn: seq<string>, j: nat, p: nat)
    requires Distinct(turn) && j <= |turn| && p < |turn|
    ensures turn[p] in turn[..j] <==> p < j
    ensures turn[p] in turn[j..] <==> j <= p
  {
    if p < j {
      assert turn[..j][p] == turn[p];
    } else {
      assert turn[j..][p - j] == turn[p];
    }
  }

  /** How often the family at position p of the round has been served. */
  lemma ServedInTurn(all: seq<Scored>, turn: seq<string>, j: nat, r: nat, p: nat)
    requires j <= |turn| && Distinct(turn) && p < |turn|
    ensures Served(all, turn, j, r, turn[p]) == if p < j then r + 1 else r
  {
    TurnPosition(turn, j, p);
  }

  lemma ServedOut(all: seq<Scored>, turn: seq<string>, j: nat, r: nat, f: string)
    requires j <= |turn| && f !in turn
    ensures Served(all, turn, j, r, f) == Count(all, f)
  {
    assert turn == turn[..j] + turn[j..];
  }

  lemma BothInTurn(all: seq<Scored>, ordered: seq<Scored>, turn: seq<string>, j: nat, r: nat, f: string, g: string,
                   p: nat, q: nat)
    requires j <= |turn| && Distinct(turn) && ServedSoFar(all, ordered, turn, j, r)
    requires p < q < |turn| && turn[p] == f && turn[q] == g
    ensures PairInTurns(all, ordered, f, g)
  {
    ServedInTurn(all, turn, j, r, p);
    ServedInTurn(all, turn, j, r, q);
    assert ServedFor(all, ordered, f, Served(all, turn, j, r, f));
    assert ServedFor(all, ordered, g, Served(all, turn, j, r, g));
  }

  /** A family that has run out after at most r rounds is in turns with every other. */
  lemma OneInTurn(all: seq<Scored>, ordered: seq<Scored>, turn: seq<string>, j: nat, r: nat,
                  f: string, p: nat, out: string)
    requires j <= |turn| && Distinct(turn) && ServedSoFar(all, ordered, turn, j, r)
    requires p < |turn| && turn[p] == f && out !in turn && Count(all, out) <= r
    ensures PairInTurns(all, ordered, f, out) && PairInTurns(all, ordered, out, f)
  {
    ServedInTurn(all, turn, j, r, p);
    ServedOut(all, turn, j, r, out);
    assert ServedFor(all, ordered, f, Served(all, turn, j, r, f));
    assert ServedFor(all, ordered, out, Served(all, turn, j, r, out));
  }

  lemma NeitherInTurn(all: seq<Scored>, ordered: seq<Scored>, turn: seq<string>, j: nat, r: nat, f: string, g: string)
    requires j <= |turn| && ServedSoFar(all, ordered, turn, j, r) && f !in turn && g !in turn
    ensures PairInTurns(all, ordered, f, g)
  {
    ServedOut(all, turn, j, r, f);
    ServedOut(all, turn, j, r, g);
    assert ServedFor(all, ordered, f, Served(all, turn, j, r, f));
    assert ServedFor(all, ordered, g, Served(all, turn, j, r, g));
  }

  lemma PairIsFair(all: seq<Scored>, ordered: seq<Scored>, turn: seq<string>, j: nat, r: nat, a: nat, b: nat)
    requires j <= |turn| && Turn(all, turn, r) && ServedSoFar(all, ordered, turn, j, r) && a < b < |Families(all)|
    ensures PairInTurns(all, ordered, Families(all)[a], Families(all)[b])
  {
    var f, g := Families(all)[a], Families(all)[b];
    if f in turn && g in turn {
      var p :| 0 <= p < |turn| && turn[p] == f;
      var q :| 0 <= q < |turn| && turn[q] == g;
      BothInTurn(all, ordered, turn, j, r, f, g, p, q);
    } else if f in turn {
      var p :| 0 <= p < |turn| && turn[p] == f;
      OneInTurn(all, ordered, turn, j, r, f, p, g);
    } else if g in turn {
      var q :| 0 <= q < |turn| && turn[q] == g;
      OneInTurn(all, ordered, turn, j, r, g, q, f);
    } else {
      NeitherInTurn(all, ordered, turn, j, r, f, g);
    }
  }

  /** At every point of a round the families have been served in turns. */
  lemma RoundIsFair(all: seq<Scored>, ordered: seq<Scored>, turn: seq<string>, j: nat, r: nat)
    requires j <= |turn| && Turn(all, turn, r) && ServedSoFar(all, ordered, turn, j, r)
    ensures InTurns(all, ordered)
  {
    forall a, b | 0 <= a < b < |Families(all)| ensures PairInTurns(all, ordered, Families(all)[a], Families(all)[b]) {
      PairIsFair(all, ordered, turn, j, r, a, b);
    }
  }

  /** Serving turn[j] advances that family by one and no other. */
  lemma ServeNext(all: seq<Scored>, turn: seq<string>, j: nat, r: nat, f: string)
    requires j < |turn| && Turn(all, turn, r)
    ensures Served(all, turn, j + 1, r, f) == Served(all, turn, j, r, f) + if f == turn[j] then 1 else 0
    ensures Served(all, turn, j, r, turn[j]) == r < Count(all, turn[j])
  {
    TurnPosition(turn, j, j);
    TurnPosition(turn, j + 1, j);
    assert turn[..j + 1] == turn[..j] + [turn[j]];
    assert turn[j..] == [turn[j]] + turn[j + 1..];
    if f in turn && f != turn[j] {
      var p :| 0 <= p < |turn| && turn[p] == f;
      TurnPosition(turn, j, p);
      TurnPosition(turn, j + 1, p);
    }
  }

  lemma PushFor(all: seq<Scored>, ordered: seq<Scored>, x: Scored, f: string, c: nat)
    requires ServedFor(all, ordered, f, c)
    requires Family(x) == f ==> c < Count(all, f) && x == OfFamily(all, f)[c]
    ensures ServedFor(all, ordered + [x], f, if Family(x) == f then c + 1 else c)
  {
    assert (ordered + [x])[..|ordered|] == ordered;
  }

  lemma ServeOne(all: seq<Scored>, ordered: seq<Scored>, turn: seq<string>, j: nat, r: nat, x: Scored)
    requires j < |turn| && Turn(all, turn, r) && ServedSoFar(all, ordered, turn, j, r)
    requires r < Count(all, turn[j]) && x == OfFamily(all, turn[j])[r]
    ensures ServedSoFar(all, ordered + [x], turn, j + 1, r)
  {
    assert Family(x) == turn[j] by {
      OfFamilyMembers(all, turn[j]);
      assert x in OfFamily(all, turn[j]);
    }
    var after, next := ordered + [x], j + 1;
    forall f ensures ServedFor(all, after, f, Served(all, turn, next, r, f)) {
      ServeNext(all, turn, j, r, f);
      PushFor(all, ordered, x, f, Served(all, turn, j, r, f));
    }
  }

  /** Serving the next family of a round keeps every prefix fair. */
  lemma ServeFairly(all: seq<Scored>, ordered: seq<Scored>, turn: seq<string>, j: nat, r: nat, x: Scored)
    requires j < |turn| && Turn(all, turn, r) && ServedSoFar(all, ordered, turn, j, r)
    requires r < Count(all, turn[j]) && x == OfFamily(all, turn[j])[r]
    requires AlwaysInTurns(all, ordered)
    ensures ServedSoFar(all, ordered + [x], turn, j + 1, r)
    ensures AlwaysInTurns(all, ordered + [x])
  {
    ServeOne(all, ordered, turn, j, r, x);
    RoundIsFair(all, ordered + [x], turn, j + 1, r);
    forall n | 0 <= n <= |ordered| + 1 ensures InTurns(all, (ordered + [x])[..n]) {
      assert (ordered + [x])[..n] == if n <= |ordered| then ordered[..n] else ordered + [x];
    }
  }

  ghost predicate AlwaysInTurns(all: seq<Scored>, ordered: seq<Scored>) {
    forall n :: 0 <= n <= |ordered| ==> InTurns(all, ordered[..n])
  }

  // Moving on to the next round

  /** The families of fs that still have something after r rounds. */
  function Remaining(all: seq<Scored>, fs: seq<string>, r: nat): seq<string> {
    if fs == [] then []
    else
      var f := fs[|fs| - 1];
      Remaining(all, fs[..|fs| - 1], r) + (if Count(all, f) > r then [f] else [])
  }

  lemma {:induction false} RemainingFacts(all: seq<Scored>, fs: seq<string>, r: nat)
    ensures forall f :: f in Remaining(all, fs, r) <==> f in fs && Count(all, f) > r
    ensures InFamilyOrder(all, fs) ==> InFamilyOrder(all, Remaining(all, fs, r))
  {
    if fs != [] {
      var front, last := fs[..|fs| - 1], fs[|fs| - 1];
      RemainingFacts(all, front, r);
      if InFamilyOrder(all, fs) {
        assert InFamilyOrder(all, front);
        var rest := Remaining(all, front, r);
        forall p | 0 <= p < |rest| ensures rest[p] in front && rest[p] != last {
          assert rest[p] in rest;
        }
        RemainingOrder(all, front, rest, last);
      }
    }
  }

  lemma RemainingOrder(all: seq<Scored>, front: seq<string>, rest: seq<string>, last: string)
    requires InFamilyOrder(all, front + [last]) && InFamilyOrder(all, rest)
    requires forall p :: 0 <= p < |rest| ==> rest[p] in front && rest[p] != last
    ensures InFamilyOrder(all, rest + [last])
  {
    var fs := front + [last];
    FamiliesDistinct(all);
    forall a, b, q |
      0 <= a < |Families(all)| && 0 <= b < |Families(all)| && 0 <= q < |rest|
      && last == Families(all)[a] && rest[q] == Families(all)[b]
      ensures b <= a
    {
      var m :| 0 <= m < |front| && front[m] == rest[q];
      assert fs[m] == rest[q] && fs[|front|] == last;
    }
  }

  lemma NextTurn(all: seq<Scored>, turn: seq<string>, r: nat)
    requires Turn(all, turn, r)
    ensures Turn(all, Remaining(all, turn, r + 1), r + 1)
    ensures forall f :: Served(all, Remaining(all, turn, r + 1), 0, r + 1, f) == Served(all, turn, |turn|, r, f)
  {
    RemainingFacts(all, turn, r + 1);
    var next := Remaining(all, turn, r + 1);
    forall f ensures Served(all, next, 0, r + 1, f) == Served(all, turn, |turn|, r, f) {
      assert turn[..|turn|] == turn && next[0..] == next;
    }
  }

  /** The end of one round is the beginning of the next. */
  lemma RoundEnds(all: seq<Scored>, ordered: seq<Scored>, queues: map<string, seq<Scored>>, turn: seq<string>, r: nat)
    requires Turn(all, turn, r) && ServedSoFar(all, ordered, turn, |turn|, r)
    requires QueuesHold(all, Remaining(all, turn, r + 1), queues, turn, |turn|, r)
    ensures var next := Remaining(all, turn, r + 1);
      && Turn(all, next, r + 1) && ServedSoFar(all, ordered, next, 0, r + 1)
      && QueuesHold(all, next, queues, next, 0, r + 1)
  {
    NextTurn(all, turn, r);
    var next, later := Remaining(all, turn, r + 1), r + 1;
    forall f ensures ServedFor(all, ordered, f, Served(all, next, 0, later, f)) {
      assert ServedFor(all, ordered, f, Served(all, turn, |turn|, r, f));
    }
  }

  lemma AllServed(all: seq<Scored>, ordered: seq<Scored>, r: nat)
    requires ServedSoFar(all, ordered, [], 0, r)
    ensures forall f :: OfFamily(ordered, f) == OfFamily(all, f)
  {
    forall f ensures OfFamily(ordered, f) == OfFamily(all, f) {
      assert ServedFor(all, ordered, f, Served(all, [], 0, r, f));
    }
  }

  /** A dictionary key is removed. */
  function RemoveKey(keys: seq<string>, f: string): seq<string> {
    if keys == [] then []
    else if keys[0] == f then keys[1..]
    else [keys[0]] + RemoveKey(keys[1..], f)
  }

  lemma RemoveKeyCons(k: string, rest: seq<string>, f: string)
    ensures RemoveKey([k] + rest, f) == if k == f then rest else [k] + RemoveKey(rest, f)
  {
    assert ([k] + rest)[1..] == rest;
  }

  /** Removing f from a + fb, where fb is f followed by b, leaves a + b. */
  lemma {:induction false} RemoveKeyAt(a: seq<string>, f: string, b: seq<string>, fb: seq<string>)
    requires f !in a && fb == [f] + b
    ensures RemoveKey(a + fb, f) == a + b
  {
    if a == [] {
      assert a + fb == [f] + b;
      RemoveKeyCons(f, b, f);
    } else {
      RemoveKeyAt(a[1..], f, b, fb);
      AppendAfterFirst(a, fb);
      AppendAfterFirst(a, b);
      RemoveKeyCons(a[0], a[1..] + fb, f);
    }
  }

  lemma AppendAfterFirst(a: seq<string>, b: seq<string>)
    requires a != []
    ensures a + b == [a[0]] + (a[1..] + b)
  {
  }

  // The loop

  /** The queues hold, for every listed key, what that family has left. */
  ghost predicate QueuesHold(all: seq<Scored>, keys: seq<string>, queues: map<string, seq<Scored>>,
                             turn: seq<string>, j: nat, r: nat)
    requires j <= |turn|
  {
    forall f <- keys ::
      && f in queues
      && Served(all, turn, j, r, f) < Count(all, f)
      && queues[f] == OfFamily(all, f)[Served(all, turn, j, r, f)..]
  }

  lemma FirstTurn(all: seq<Scored>)
    ensures Turn(all, Families(all), 0) && ServedSoFar(all, [], Families(all), 0, 0)
  {
    FamiliesDistinct(all);
    forall f
      ensures Count(all, f) > 0 <==> f in Families(all)
      ensures f !in Families(all) ==> Served(all, Families(all), 0, 0, f) == 0
      ensures f in Families(all) ==> Served(all, Families(all), 0, 0, f) == 0
    {
      OfFamilyMembers(all, f);
      assert Families(all)[0..] == Families(all);
    }
  }

  method QueueUp(xs: seq<Scored>) returns (keys: seq<string>, queues: map<string, seq<Scored>>)
    ensures keys == Families(xs)
    ensures forall f <- keys :: f in queues && queues[f] == OfFamily(xs, f)
  {
    keys, queues := [], map[];
    var i := 0;
    while i < |xs|
      invariant 0 <= i <= |xs|
      invariant keys == Families(xs[..i])
      invariant forall f <- keys :: f in queues && queues[f] == OfFamily(xs[..i], f)
    {
      assert xs[..i + 1][..i] == xs[..i];
      var f := Family(xs[i]);
      OfFamilyMembers(xs[..i], f);
      if f in keys {
        queues := queues[f := queues[f] + [xs[i]]];
      } else {
        keys, queues := keys + [f], queues[f := [xs[i]]];
      }
      i := i + 1;
    }
    assert xs[..i] == xs;
  }

  /** Take the front of one family's queue and drop the family when nothing is left. */
  method TakeFront(keys0: seq<string>, queues0: map<string, seq<Scored>>, f: string)
    returns (x: Scored, keys: seq<string>, queues: map<string, seq<Scored>>)
    requires f in queues0 && queues0[f] != []
    ensures x == queues0[f][0]
    ensures keys == if |queues0[f]| == 1 then RemoveKey(keys0, f) else keys0
    ensures forall g :: g in queues0 && g != f ==> g in queues && queues[g] == queues0[g]
    ensures |queues0[f]| > 1 ==> f in queues && queues[f] == queues0[f][1..]
  {
    keys, queues := keys0, queues0;
    x := queues[f][0];
    queues := queues[f := queues[f][1..]];
    if queues[f] == [] {
      keys, queues := RemoveKey(keys, f), queues - {f};
    }
  }

  lemma {:induction false} KeysStep(all: seq<Scored>, turn: seq<string>, j: nat, r: nat)
    requires j < |turn| && Turn(all, turn, r)
    ensures var keys := Remaining(all, turn[..j], r + 1) + turn[j..];
      && turn[j] in keys
      && Remaining(all, turn[..j + 1], r + 1) + turn[j + 1..]
         == (if Count(all, turn[j]) == r + 1 then RemoveKey(keys, turn[j]) else keys)
      && (forall g :: g in RemoveKey(keys, turn[j]) ==> g in keys && g != turn[j])
  {
    hide Turn, Remaining, Count, RemoveKey;
    RoundStep(all, turn, j, r);
    var before := Remaining(all, turn[..j], r + 1);
    PutBetween(before, turn[j], turn[j + 1..], turn[j..]);
  }

  /** What removing f leaves of a + [f] + b. */
  lemma PutBetween(a: seq<string>, f: string, b: seq<string>, fb: seq<string>)
    requires f !in a && f !in b && fb == [f] + b
    ensures f in a + fb && a + fb == (a + [f]) + b && RemoveKey(a + fb, f) == a + b
    ensures forall g :: g in RemoveKey(a + fb, f) ==> g in a + fb && g != f
  {
    AppendAssociates(a, [f], b);
    RemoveKeyAt(a, f, b, fb);
  }

  lemma QueuesStep(all: seq<Scored>, keys: seq<string>, queues: map<string, seq<Scored>>, turn: seq<string>,
                   j: nat, r: nat,
                   keys': seq<string>, queues': map<string, seq<Scored>>)
    requires j < |turn| && Turn(all, turn, r) && QueuesHold(all, keys, queues, turn, j, r) && turn[j] in keys
    requires forall g :: g in keys' ==> g in keys && (g == turn[j] ==> |queues[g]| > 1)
    requires forall g :: g in queues && g != turn[j] ==> g in queues' && queues'[g] == queues[g]
    requires |queues[turn[j]]| > 1 ==> turn[j] in queues' && queues'[turn[j]] == queues[turn[j]][1..]
    ensures QueuesHold(all, keys', queues', turn, j + 1, r)
  {
    forall g | g in keys'
      ensures g in queues' && Served(all, turn, j + 1, r, g) < Count(all, g)
        && queues'[g] == OfFamily(all, g)[Served(all, turn, j + 1, r, g)..]
    {
      ServeNext(all, turn, j, r, g);
    }
  }

  /** Serve every family of the round once, dropping the ones that run out. */
  method ServeRound(ghost all: seq<Scored>, ordered0: seq<Scored>, keys0: seq<string>,
                    queues0: map<string, seq<Scored>>, ghost r: nat)
    returns (ordered: seq<Scored>, keys: seq<string>, queues: map<string, seq<Scored>>)
    requires Turn(all, keys0, r) && ServedSoFar(all, ordered0, keys0, 0, r)
    requires QueuesHold(all, keys0, queues0, keys0, 0, r)
    requires AlwaysInTurns(all, ordered0)
    ensures keys == Remaining(all, keys0, r + 1)
    ensures ServedSoFar(all, ordered, keys0, |keys0|, r)
    ensures QueuesHold(all, keys, queues, keys0, |keys0|, r)
    ensures AlwaysInTurns(all, ordered)
  {
    var turn := keys0;
    ordered, keys, queues := ordered0, keys0, queues0;
    var j := 0;
    assert turn[0..] == turn;
    while j < |turn|
      invariant 0 <= j <= |turn|
      invariant keys == Remaining(all, turn[..j], r + 1) + turn[j..]
      invariant ServedSoFar(all, ordered, turn, j, r)
      invariant QueuesHold(all, keys, queues, turn, j, r)
      invariant AlwaysInTurns(all, ordered)
    {
      KeysStep(all, turn, j, r);
      RoundStep(all, turn, j, r);
      ghost var keysBefore, queuesBefore := keys, queues;
      assert queues[turn[j]] == OfFamily(all, turn[j])[r..];
      var x: Scored;
      x, keys, queues := TakeFront(keys, queues, turn[j]);
      QueuesStep(all, keysBefore, queuesBefore, turn, j, r, keys, queues);
      ServeFairly(all, ordered, turn, j, r, x);
      ordered := ordered + [x];
      j := j + 1;
    }
    assert turn[..j] == turn && turn[j..] == [];
  }

  lemma RoundStep(all: seq<Scored>, turn: seq<string>, j: nat, r: nat)
    requires j < |turn| && Turn(all, turn, r)
    ensures turn[j] !in Remaining(all, turn[..j], r + 1) && turn[j] !in turn[j + 1..]
    ensures Remaining(all, turn[..j + 1], r + 1) ==
      Remaining(all, turn[..j], r + 1) + (if Count(all, turn[j]) > r + 1 then [turn[j]] else [])
    ensures Served(all, turn, j, r, turn[j]) == r < Count(all, turn[j])
  {
    RemainingFacts(all, turn[..j], r + 1);
    TurnPosition(turn, j, j);
    TurnPosition(turn, j + 1, j);
    ServeNext(all, turn, j, r, turn[j]);
    assert turn[..j + 1][..j] == turn[..j];
  }

  /** The state between two rounds, after r full ones. */
  ghost predicate RoundStarts(all: seq<Scored>, ordered: seq<Scored>, keys: seq<string>,
                              queues: map<string, seq<Scored>>, r: nat)
  {
    && Turn(all, keys, r) && ServedSoFar(all, ordered, keys, 0, r)
    && QueuesHold(all, keys, queues, keys, 0, r)
    && AlwaysInTurns(all, ordered)
  }

  lemma FirstRound(xs: seq<Scored>, queues: map<string, seq<Scored>>)
    requires forall f <- Families(xs) :: f in queues && queues[f] == OfFamily(xs, f)
    ensures RoundStarts(xs, [], Families(xs), queues, 0)
  {
    var keys := Families(xs);
    FirstTurn(xs);
    RoundIsFair(xs, [], keys, 0, 0);
    forall f <- keys
      ensures Served(xs, keys, 0, 0, f) < Count(xs, f) && queues[f] == OfFamily(xs, f)[Served(xs, keys, 0, 0, f)..]
    {
      assert ServedFor(xs, [], f, Served(xs, keys, 0, 0, f));
    }
  }

  /** A round is left to serve, so fewer than |all| have been served. */
  lemma RoundsLeft(all: seq<Scored>, keys: seq<string>, r: nat)
    requires Turn(all, keys, r) && keys != []
    ensures r < |all|
  {
    assert keys[0] in keys;
    CountBound(all, keys[0]);
  }

  /** Round-robin over the families: the one fair order of the ranked selections. */
  method FamilyDiverseOrder(xs: seq<Scored>) returns (ordered: seq<Scored>)
    ensures FairOrder(xs, ordered)
  {
    var keys, queues := QueueUp(xs);
    ordered := [];
    ghost var r := 0;
    FirstRound(xs, queues);
    while keys != []
      invariant RoundStarts(xs, ordered, keys, queues, r)
      decreases |xs| - r
    {
      RoundsLeft(xs, keys, r);
      ghost var turn := keys;
      ordered, keys, queues := ServeRound(xs, ordered, keys, queues, r);
      RoundEnds(xs, ordered, queues, turn, r);
      r := r + 1;
    }
    AllServed(xs, ordered, r);
  }

  lemma {:induction false} CountBound(xs: seq<Scored>, f: string)
    ensures Count(xs, f) <= |xs|
  {
    if xs != [] {
      CountBound(xs[..|xs| - 1], f);
    }
  }

  // The allocation report

  datatype Selection = Selection(arm: Arm, score: real, selected: bool, rank: nat)

  datatype CohortError = DuplicateNodes | DroppedArm

  datatype AllocationReport = AllocationReport(guarded: nat, selected: seq<Selection>, deferred: seq<Selection>)
  {
    /** Allocation bookkeeping neither duplicated a node nor dropped a guarded arm. */
    predicate CompleteCohort() {
      var all := selected + deferred;
      (forall i, j :: 0 <= i < j < |all| ==> all[i].arm.nodeId != all[j].arm.nodeId) && |all| == guarded
    }

    /** What the check after allocation raises. */
    function CohortErrorOf(): (e: Option<CohortError>)
      ensures e.None? <==> CompleteCohort()
    {
      var all := selected + deferred;
      if exists i, j :: 0 <= i < j < |all| && all[i].arm.nodeId == all[j].arm.nodeId then Some(DuplicateNodes)
      else if |all| != guarded then Some(DroppedArm)
      else None
    }

    /** Every guarded arm, sorted by rank; ranks are positive, and the sort is stable. */
    function EligibleCohort(): seq<Selection> {
      Unkey(SortDesc(ByRank(selected + deferred)))
    }
  }

  /** Sorting upwards by rank is sorting downwards by its negation. */
  function ByRank(xs: seq<Selection>): seq<Keyed<Selection>> {
    seq(|xs|, i requires 0 <= i < |xs| => Keyed(-(xs[i].rank as real), xs[i]))
  }

  function Unkey(xs: seq<Keyed<Selection>>): seq<Selection> {
    seq(|xs|, i requires 0 <= i < |xs| => xs[i].item)
  }

  /** Every selection in allocation order, ranked from 1, the first `window` of them selected. */
  ghost predicate RankedCohort(order: seq<Scored>, window: nat, report: AllocationReport) {
    var all := report.selected + report.deferred;
    && |all| == |order|
    && |report.selected| == (if |order| < window then |order| else window)
    && forall n :: 0 <= n < |order| ==> all[n] == Selection(order[n].item, order[n].key, n < window, n + 1)
  }

  /** Walk the order, fill the window, rank everything. */
  method Allocate(order: seq<Scored>, window: nat) returns (report: AllocationReport)
    ensures report.guarded == |order| && RankedCohort(order, window, report)
  {
    var selected, deferred: seq<Selection> := [], [];
    var n := 0;
    while n < |order|
      invariant 0 <= n <= |order|
      invariant |selected| == (if n < window then n else window) && |selected + deferred| == n
      invariant forall m :: 0 <= m < n ==>
        (selected + deferred)[m] == Selection(order[m].item, order[m].key, m < window, m + 1)
    {
      var rank := n + 1;
      if |selected| < window {
        selected := selected + [Selection(order[n].item, order[n].key, true, rank)];
      } else {
        deferred := deferred + [Selection(order[n].item, order[n].key, false, rank)];
      }
      n := rank;
    }
    report := AllocationReport(|order|, selected, deferred);
  }

  /** Reading the cohort back in rank order gives the allocation order. */
  lemma CohortIsOrder(order: seq<Scored>, window: nat, report: AllocationReport)
    requires RankedCohort(order, window, report)
    ensures report.EligibleCohort() == report.selected + report.deferred
  {
    var all := report.selected + report.deferred;
    SortDescOfSorted(ByRank(all));
    assert Unkey(ByRank(all)) == all;
  }

  ghost predicate DistinctNodes(arms: seq<Scored>) {
    forall i, j :: 0 <= i < j < |arms| ==> arms[i].item.nodeId != arms[j].item.nodeId
  }

  /** A permutation keeps node ids distinct. */
  lemma PermutedNodes(xs: seq<Scored>, ys: seq<Scored>)
    requires multiset(xs) == multiset(ys) && DistinctNodes(xs)
    ensures DistinctNodes(ys)
  {
    forall i, j | 0 <= i < j < |ys| ensures ys[i].item.nodeId != ys[j].item.nodeId {
      assert ys[i] in multiset(xs) && ys[j] in multiset(xs);
      var a :| 0 <= a < |xs| && xs[a] == ys[i];
      var b :| 0 <= b < |xs| && xs[b] == ys[j];
      if a == b {
        TwoOccurrences(ys, i, j);
        OneOccurrence(xs, a);
      }
    }
  }

  lemma TwoOccurrences(ys: seq<Scored>, i: nat, j: nat)
    requires i < j < |ys| && ys[i] == ys[j]
    ensures multiset(ys)[ys[i]] >= 2
  {
    assert ys == ys[..i] + [ys[i]] + ys[i+1..j] + [ys[j]] + ys[j+1..];
  }

  lemma OneOccurrence(xs: seq<Scored>, a: nat)
    requires DistinctNodes(xs) && a < |xs|
    ensures multiset(xs)[xs[a]] == 1
  {
    assert xs == xs[..a] + [xs[a]] + xs[a+1..];
    assert xs[a] !in xs[..a] && xs[a] !in xs[a+1..];
  }

  /** `order` is the ranking of the arms, interleaved if asked for. */
  ghost predicate AllocationOrder(arms: seq<Scored>, diverse: bool, order: seq<Scored>) {
    if diverse then FairOrder(SortDesc(arms), order) else order == SortDesc(arms)
  }

  lemma OrderIsPermutation(arms: seq<Scored>, diverse: bool, order: seq<Scored>)
    requires AllocationOrder(arms, diverse, order)
    ensures multiset(order) == multiset(arms) && |order| == |arms|
  {
    SortDescCorrect(arms);
    if diverse {
      FairIsPermutation(SortDesc(arms), order);
    }
  }

  lemma SameNodes(order: seq<Scored>, window: nat, report: AllocationReport)
    requires RankedCohort(order, window, report)
    ensures report.CompleteCohort() <==> DistinctNodes(order) && report.guarded == |order|
  {
    var all := report.selected + report.deferred;
    forall n | 0 <= n < |order| ensures all[n].arm == order[n].item {
      assert all[n] == Selection(order[n].item, order[n].key, n < window, n + 1);
    }
    if report.CompleteCohort() {
      forall i, j | 0 <= i < j < |order| ensures order[i].item.nodeId != order[j].item.nodeId {
        assert all[i].arm.nodeId != all[j].arm.nodeId;
      }
    }
  }

  /** The completeness check passes exactly when the guarded arms have distinct node ids. */
  lemma CohortCompleteExactly(arms: seq<Scored>, window: nat, diverse: bool, order: seq<Scored>,
                              report: AllocationReport)
    requires AllocationOrder(arms, diverse, order)
    requires report.guarded == |arms| && RankedCohort(order, window, report)
    ensures report.CompleteCohort() <==> DistinctNodes(arms)
  {
    OrderIsPermutation(arms, diverse, order);
    SameNodes(order, window, report);
    if DistinctNodes(arms) {
      PermutedNodes(arms, order);
    }
    if DistinctNodes(order) {
      PermutedNodes(order, arms);
    }
  }

  /**
    Rank the guarded arms, interleave their families if asked to, allocate, and check the books.  The
    check passes exactly when the arms have distinct node ids, and an arm is never dropped.
    */
  method Optimize(arms: seq<Scored>, window: nat, diverse: bool)
    returns (result: Result<AllocationReport, CohortError>, ghost order: seq<Scored>)
    ensures result.Ok? <==> DistinctNodes(arms)
    ensures result.Err? ==> result.error == DuplicateNodes
    ensures AllocationOrder(arms, diverse, order)
    ensures result.Ok? ==> result.value.guarded == |arms| && RankedCohort(order, window, result.value)
  {
    hide SortDesc;
    var scored := SortDesc(arms);
    if diverse {
      var interleaved := FamilyDiverseOrder(scored);
      FairIsPermutation(scored, interleaved);
      scored := interleaved;
    }
    order := scored;
    OrderIsPermutation(arms, diverse, order);
    var report := Allocate(scored, window);
    assert |multiset(order)| == |order| && |multiset(arms)| == |arms|;
    CohortCompleteExactly(arms, window, diverse, order, report);
    var error := report.CohortErrorOf();
    result := if error.Some? then Err(error.value) else Ok(report);
  }
}
