/**
  Budget allocation over guard-approved arms: rank by bandit score, interleave the component families
  round robin, cut the ranked cohort at the allocation window.
  */
module BudgetOrder {
  import opened Options
  import opened StableSort

  /** A guarded arm; its bandit score, which needs a logarithm and a root, is an input. */
  datatype Arm = Arm(nodeId: string, family: string)

  type Scored = Keyed<Arm>

  function Family(x: Scored): string {
    x.item.family
  }

  // What a fair order is

  /** The selections of one family, in order. */
  function OfFamily(xs: seq<Scored>, f: string): seq<Scored> {
    if xs == [] then []
    else
      var last := xs[|xs| - 1];
      OfFamily(xs[..|xs| - 1], f) + (if Family(last) == f then [last] else [])
  }

  function Count(xs: seq<Scored>, f: string): nat {
    |OfFamily(xs, f)|
  }

  /** The families in order of first appearance. */
  function Families(xs: seq<Scored>): seq<string> {
    if xs == [] then []
    else
      var fs := Families(xs[..|xs| - 1]);
      var f := Family(xs[|xs| - 1]);
      if f in fs then fs else fs + [f]
  }

  /** Family f of `all` has nothing left after the first part `done`. */
  predicate Exhausted(all: seq<Scored>, done: seq<Scored>, f: string) {
    Count(done, f) == Count(all, f)
  }

  /**
    The later family g is never ahead of the earlier family f, and f at most one ahead of g, unless
    the one behind is exhausted.
    */
  predicate PairInTurns(all: seq<Scored>, done: seq<Scored>, f: string, g: string) {
    && (Count(done, g) <= Count(done, f) || Exhausted(all, done, f))
    && (Count(done, f) <= Count(done, g) + 1 || Exhausted(all, done, g))
  }

  /** `done` serves the families of `all` in turns, an earlier family before a later one. */
  ghost predicate InTurns(all: seq<Scored>, done: seq<Scored>) {
    forall a, b :: 0 <= a < b < |Families(all)| ==> PairInTurns(all, done, Families(all)[a], Families(all)[b])
  }

  /** `order` keeps the order inside every family and serves the families in turns at every point. */
  ghost predicate FairOrder(all: seq<Scored>, order: seq<Scored>) {
    && (forall f :: OfFamily(order, f) == OfFamily(all, f))
    && (forall n :: 0 <= n <= |order| ==> InTurns(all, order[..n]))
  }

  // Family projections

  lemma {:induction false} OfFamilyAppend(xs: seq<Scored>, ys: seq<Scored>, f: string)
    ensures OfFamily(xs + ys, f) == OfFamily(xs, f) + OfFamily(ys, f)
  {
    if ys == [] {
      assert xs + ys == xs;
    } else {
      var n := |ys| - 1;
      OfFamilyAppend(xs, ys[..n], f);
      assert (xs + ys)[..|xs + ys| - 1] == xs + ys[..n];
    }
  }

  lemma {:induction false} OfFamilyMembers(xs: seq<Scored>, f: string)
    ensures forall x :: x in OfFamily(xs, f) <==> x in xs && Family(x) == f
    ensures OfFamily(xs, f) == [] <==> f !in Families(xs)
  {
    if xs != [] {
      OfFamilyMembers(xs[..|xs| - 1], f);
    }
  }

  lemma {:induction false} FamiliesDistinct(xs: seq<Scored>)
    ensures forall a, b :: 0 <= a < b < |Families(xs)| ==> Families(xs)[a] != Families(xs)[b]
  {
    if xs != [] {
      FamiliesDistinct(xs[..|xs| - 1]);
    }
  }

  lemma {:induction false} OfFamilyShorter(xs: seq<Scored>, n: nat, f: string)
    requires n <= |xs|
    ensures Count(xs[..n], f) <= Count(xs, f)
    ensures OfFamily(xs[..n], f) == OfFamily(xs, f)[..Count(xs[..n], f)]
  {
    assert xs == xs[..n] + xs[n..];
    OfFamilyAppend(xs[..n], xs[n..], f);
  }

  /** How often x occurs is how often it occurs in its own family. */
  lemma {:induction false} Occurrences(xs: seq<Scored>, x: Scored)
    ensures multiset(xs)[x] == multiset(OfFamily(xs, Family(x)))[x]
  {
    if xs != [] {
      Occurrences(xs[..|xs| - 1], x);
      assert xs == xs[..|xs| - 1] + [xs[|xs| - 1]];
    }
  }

  /** Keeping every family's own order makes the whole a permutation. */
  lemma FairIsPermutation(all: seq<Scored>, order: seq<Scored>)
    requires FairOrder(all, order)
    ensures multiset(order) == multiset(all) && |order| == |all|
  {
    forall x ensures multiset(order)[x] == multiset(all)[x] {
      Occurrences(order, x);
      Occurrences(all, x);
      assert OfFamily(order, Family(x)) == OfFamily(all, Family(x));
    }
    assert multiset(order) == multiset(all);
    assert |multiset(order)| == |order| && |multiset(all)| == |all|;
  }

  // A fair order is unique

  /** A family served before a later one was not ahead of it, unless the later one had run out. */
  lemma EarlierServed(all: seq<Scored>, xs: seq<Scored>, n: nat, a: nat, b: nat)
    requires FairOrder(all, xs) && n < |xs| && a < b < |Families(all)| && Families(all)[a] == Family(xs[n])
    ensures var f, g := Families(all)[a], Families(all)[b];
      Count(xs[..n], f) <= Count(xs[..n], g) || Exhausted(all, xs[..n], g)
  {
    FamiliesDistinct(all);
    CountNext(xs, n, Families(all)[a]);
    CountNext(xs, n, Families(all)[b]);
    assert InTurns(all, xs[..n + 1]);
    assert PairInTurns(all, xs[..n + 1], Families(all)[a], Families(all)[b]);
  }

  /** A later family is served only when it was behind an earlier one that had not run out. */
  lemma LaterServed(all: seq<Scored>, xs: seq<Scored>, n: nat, a: nat, b: nat)
    requires FairOrder(all, xs) && n < |xs| && a < b < |Families(all)| && Families(all)[b] == Family(xs[n])
    ensures var f, g := Families(all)[a], Families(all)[b];
      Count(xs[..n], g) < Count(xs[..n], f) || Exhausted(all, xs[..n], f)
  {
    FamiliesDistinct(all);
    CountNext(xs, n, Families(all)[a]);
    CountNext(xs, n, Families(all)[b]);
    assert InTurns(all, xs[..n + 1]);
    assert PairInTurns(all, xs[..n + 1], Families(all)[a], Families(all)[b]);
  }

  /** After the same beginning two fair orders serve the same family next. */
  lemma SameFamilyNext(all: seq<Scored>, xs: seq<Scored>, ys: seq<Scored>, n: nat)
    requires FairOrder(all, xs) && FairOrder(all, ys)
    requires n < |xs| && n < |ys| && xs[..n] == ys[..n]
    ensures Family(xs[n]) == Family(ys[n])
  {
    NextIsOpen(all, xs, n);
    NextIsOpen(all, ys, n);
    var a :| 0 <= a < |Families(all)| && Families(all)[a] == Family(xs[n]);
    var b :| 0 <= b < |Families(all)| && Families(all)[b] == Family(ys[n]);
    if a < b {
      EarlierServed(all, xs, n, a, b);
      LaterServed(all, ys, n, a, b);
    } else if b < a {
      EarlierServed(all, ys, n, b, a);
      LaterServed(all, xs, n, b, a);
    }
  }

  lemma CountNext(xs: seq<Scored>, n: nat, g: string)
    requires n < |xs|
    ensures Count(xs[..n + 1], g) == Count(xs[..n], g) + if Family(xs[n]) == g then 1 else 0
  {
    assert xs[..n + 1][..n] == xs[..n];
  }

  /** Whatever comes next belongs to a family that is listed and not exhausted. */
  lemma NextIsOpen(all: seq<Scored>, xs: seq<Scored>, n: nat)
    requires FairOrder(all, xs) && n < |xs|
    ensures Count(xs[..n], Family(xs[n])) < Count(all, Family(xs[n]))
    ensures Family(xs[n]) in Families(all)
  {
    var f := Family(xs[n]);
    CountNext(xs, n, f);
    OfFamilyShorter(xs, n + 1, f);
    OfFamilyMembers(all, f);
  }

  lemma {:induction false} SamePrefix(all: seq<Scored>, xs: seq<Scored>, ys: seq<Scored>, n: nat)
    requires FairOrder(all, xs) && FairOrder(all, ys) && n <= |xs| && n <= |ys|
    ensures xs[..n] == ys[..n]
  {
    if n > 0 {
      SamePrefix(all, xs, ys, n - 1);
      SameFamilyNext(all, xs, ys, n - 1);
      var f := Family(xs[n - 1]);
      NthOfFamily(all, xs, n - 1);
      NthOfFamily(all, ys, n - 1);
      assert xs[..n] == xs[..n - 1] + [xs[n - 1]] && ys[..n] == ys[..n - 1] + [ys[n - 1]];
    }
  }

  lemma NthOfFamily(all: seq<Scored>, xs: seq<Scored>, n: nat)
    requires FairOrder(all, xs) && n < |xs|
    ensures var f := Family(xs[n]);
      Count(xs[..n], f) < Count(all, f) && xs[n] == OfFamily(all, f)[Count(xs[..n], f)]
  {
    var f := Family(xs[n]);
    OfFamilyShorter(xs, n + 1, f);
    assert xs[..n + 1][..n] == xs[..n];
    assert OfFamily(xs[..n + 1], f)[Count(xs[..n], f)] == xs[n];
    assert OfFamily(xs, f) == OfFamily(all, f);
  }

  /** The fairness conditions leave no choice: there is one fair order. */
  lemma FairOrderUnique(all: seq<Scored>, xs: seq<Scored>, ys: seq<Scored>)
    requires FairOrder(all, xs) && FairOrder(all, ys)
    ensures xs == ys
  {
    FairIsPermutation(all, xs);
    FairIsPermutation(all, ys);
    SamePrefix(all, xs, ys, |xs|);
    assert xs[..|xs|] == xs && ys[..|ys|] == ys;
  }

  // Which families come first

  /** The place of the first selection of a family, or the number of selections. */
  function FirstPlace(xs: seq<Scored>, f: string): (r: nat)
    ensures r <= |xs| && (forall j :: 0 <= j < r ==> Family(xs[j]) != f) && (r < |xs| ==> Family(xs[r]) == f)
  {
    if xs == [] then 0
    else
      var n := |xs| - 1;
      var r := FirstPlace(xs[..n], f);
      if r < n || Family(xs[n]) == f then r else |xs|
  }

  /** The families are listed by their best-ranked selection, each of them once. */
  lemma {:induction false} FamiliesByFirstPlace(xs: seq<Scored>)
    ensures forall a, b :: 0 <= a < b < |Families(xs)| ==>
      FirstPlace(xs, Families(xs)[a]) < FirstPlace(xs, Families(xs)[b])
    ensures forall f :: f in Families(xs) <==> FirstPlace(xs, f) < |xs|
  {
    if xs != [] {
      var n := |xs| - 1;
      FamiliesByFirstPlace(xs[..n]);
      var fs := Families(xs[..n]);
      forall a | 0 <= a < |fs| ensures FirstPlace(xs, fs[a]) == FirstPlace(xs[..n], fs[a]) < n {
        assert fs[a] in fs;
      }
    }
  }

  lemma FirstOfFamily(xs: seq<Scored>)
    requires xs != []
    ensures var own := OfFamily(xs, Family(xs[0])); own != [] && own[0] == xs[0]
  {
    var x := xs[0];
    assert xs == [x] + xs[1..] && [x][..0] == [];
    OfFamilyAppend([x], xs[1..], Family(x));
    assert OfFamily([x], Family(x)) == [x];
  }

  lemma OnlyOne(x: Scored, f: string)
    ensures Count([x], f) == if Family(x) == f then 1 else 0
  {
    assert [x][..0] == [] && OfFamily([x][..0], f) == [];
    assert OfFamily([x], f) == [] + (if Family(x) == f then [x] else []);
  }

  /** A first selection from any other family would leave the best-ranked family behind. */
  lemma OtherIsOutOfTurn(all: seq<Scored>, x: Scored) returns (a: nat, b: nat)
    requires all != [] && x in all && Family(x) != Family(all[0])
    ensures a < b < |Families(all)| && !PairInTurns(all, [x], Families(all)[a], Families(all)[b])
  {
    var best, fs := Family(all[0]), Families(all);
    FamiliesByFirstPlace(all);
    FirstOfFamily(all);
    var j :| 0 <= j < |all| && all[j] == x;
    assert FirstPlace(all, best) == 0 && FirstPlace(all, Family(x)) < |all|;
    a :| 0 <= a < |fs| && fs[a] == best;
    b :| 0 <= b < |fs| && fs[b] == Family(x);
    OnlyOne(x, Family(x));
    OnlyOne(x, best);
  }

  /** A fair order starts with the best-ranked selection. */
  lemma FairStarts(all: seq<Scored>, order: seq<Scored>)
    requires FairOrder(all, order) && all != []
    ensures order != [] && order[0] == all[0]
  {
    FairIsPermutation(all, order);
    assert |multiset(all)| == |all| && |multiset(order)| == |order|;
    assert order[0] in multiset(order) && order[..1] == [order[0]];
    assert InTurns(all, order[..1]);
    if Family(order[0]) != Family(all[0]) {
      var a, b := OtherIsOutOfTurn(all, order[0]);
    }
    FirstOfFamily(all);
    FirstOfFamily(order);
    assert OfFamily(order, Family(all[0])) == OfFamily(all, Family(all[0]));
  }
}
