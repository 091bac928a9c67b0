/**
  The history-aware diversity screen: exact dedupe, family exhaustion, family cooldown and a minimum
  semantic distance, and the history it grows.
  */
module Diversity {
  import opened Options
  import opened Collections
  import opened Reals

  /** A changed value; lists, objects and text are compared as wholes. */
  datatype Value = Null | Number(r: real) | Flag(b: bool) | Other(canonical: string)

  datatype Descriptor = Descriptor(
    fingerprint: string, family: string, changed: map<string, Value>, tokens: set<string>)

  datatype Entry = Entry(descriptor: Descriptor, round: int, effect: Option<real>, improved: bool, completed: bool)

  datatype Policy = Policy(cooldown: nat, minimumDistance: real, exhaustionAttempts: nat, minimumImprovement: real)

  datatype Reason =
    | DuplicateFingerprint | FamilyExhausted | FamilyCooldown(latest: int) | TooClose | GuardsPassed

  datatype Status = Eligible | Deferred | Exhausted

  datatype Decision = Decision(status: Status, nearest: Option<real>, reason: Reason)

  // Distance

  function AsNumber(b: bool): real {
    if b then 1.0 else 0.0
  }

  /** Python equality, under which a flag equals the number 0 or 1. */
  predicate Same(a: Value, b: Value) {
    match (a, b)
    case (Flag(x), Number(y)) => AsNumber(x) == y
    case (Number(x), Flag(y)) => x == AsNumber(y)
    case _ => a == b
  }

  function ValueDistance(a: Value, b: Value): real {
    if a.Null? || b.Null? then 1.0
    else if a.Number? && b.Number? then Min(1.0, Abs(a.r - b.r) / Max(Max(Abs(a.r), Abs(b.r)), 1.0))
    else if Same(a, b) then 0.0 else 1.0
  }

  function Get(m: map<string, Value>, k: string): Value {
    if k in m then m[k] else Null
  }

  function Distances(a: map<string, Value>, b: map<string, Value>): map<string, real> {
    map k | k in a.Keys + b.Keys :: ValueDistance(Get(a, k), Get(b, k))
  }

  /** The sum of the values of a map, in some order. */
  ghost function Total(m: map<string, real>): real
    decreases |m|
  {
    if m == map[] then 0.0
    else
      var k :| k in m;
      m[k] + Total(m - {k})
  }

  ghost function SemanticDistance(a: Descriptor, b: Descriptor): real {
    if a.fingerprint == b.fingerprint then 0.0
    else if a.family != b.family then 1.0
    else
      var ds := Distances(a.changed, b.changed);
      if ds != map[] then Min(1.0, Total(ds) / |ds| as real)
      else
        var union := a.tokens + b.tokens;
        if union == {} then 0.0 else 1.0 - |a.tokens * b.tokens| as real / |union| as real
  }

  lemma QuotientUnit(x: real, n: real)
    requires 0.0 <= x <= n && n > 0.0
    ensures 0.0 <= x / n <= 1.0
  {
  }

  lemma ValueDistanceFacts(a: Value, b: Value)
    ensures ValueDistance(a, b) == ValueDistance(b, a)
    ensures 0.0 <= ValueDistance(a, b) <= 1.0
  {
    if a.Number? && b.Number? {
      assert Abs(a.r - b.r) == Abs(b.r - a.r);
      assert Max(Abs(a.r), Abs(b.r)) == Max(Abs(b.r), Abs(a.r));
      NonNegativeQuotient(Abs(a.r - b.r), Max(Max(Abs(a.r), Abs(b.r)), 1.0));
    }
  }

  lemma DistancesSymmetric(a: map<string, Value>, b: map<string, Value>)
    ensures Distances(a, b) == Distances(b, a)
  {
    assert a.Keys + b.Keys == b.Keys + a.Keys;
    forall k | k in a.Keys + b.Keys ensures Distances(a, b)[k] == Distances(b, a)[k] {
      ValueDistanceFacts(Get(a, k), Get(b, k));
    }
  }

  lemma {:induction false} TotalBounds(m: map<string, real>)
    requires forall k <- m :: 0.0 <= m[k] <= 1.0
    ensures 0.0 <= Total(m) <= |m| as real
    decreases |m|
  {
    if m != map[] {
      var k :| k in m && Total(m) == m[k] + Total(m - {k});
      assert |m - {k}| == |m| - 1 by {
        assert (m - {k}).Keys == m.Keys - {k};
      }
      TotalBounds(m - {k});
    }
  }

  /** The distance is symmetric, lies in [0, 1], and is 0 from a recipe to itself. */
  lemma DistanceIsSymmetric(a: Descriptor, b: Descriptor)
    ensures SemanticDistance(a, b) == SemanticDistance(b, a)
    ensures 0.0 <= SemanticDistance(a, b) <= 1.0
    ensures SemanticDistance(a, a) == 0.0
  {
    DistancesSymmetric(a.changed, b.changed);
    assert a.tokens + b.tokens == b.tokens + a.tokens && a.tokens * b.tokens == b.tokens * a.tokens;
    var ds := Distances(a.changed, b.changed);
    if ds != map[] {
      assert |ds| > 0;
      forall k <- ds ensures 0.0 <= ds[k] <= 1.0 {
        ValueDistanceFacts(Get(a.changed, k), Get(b.changed, k));
      }
      TotalBounds(ds);
      NonNegativeQuotient(Total(ds), |ds| as real);
    } else if a.tokens + b.tokens != {} {
      SubsetSize(a.tokens * b.tokens, a.tokens + b.tokens);
      QuotientUnit(|a.tokens * b.tokens| as real, |a.tokens + b.tokens| as real);
    }
  }

  // The screen

  /** The entry counts as a real improvement. */
  predicate Improves(e: Entry, policy: Policy) {
    e.improved && (match e.effect case None => 0.0 case Some(x) => x) > policy.minimumImprovement
  }

  function OfFamily(history: seq<Entry>, family: string): seq<Entry> {
    if history == [] then []
    else
      var last := history[|history| - 1];
      OfFamily(history[..|history| - 1], family) + (if last.descriptor.family == family then [last] else [])
  }

  function CompletedCount(history: seq<Entry>): nat {
    if history == [] then 0
    else CompletedCount(history[..|history| - 1]) + (if history[|history| - 1].completed then 1 else 0)
  }

  /** Enough completed attempts, none of which improved anything. */
  predicate IsExhausted(history: seq<Entry>, policy: Policy) {
    && CompletedCount(history) >= policy.exhaustionAttempts
    && !exists i :: 0 <= i < |history| && history[i].completed && Improves(history[i], policy)
  }

  function LatestRound(history: seq<Entry>): (r: int)
    requires history != []
    ensures forall i :: 0 <= i < |history| ==> history[i].round <= r
    ensures exists i :: 0 <= i < |history| && history[i].round == r
  {
    var n := |history| - 1;
    if n == 0 then history[0].round
    else
      var r := LatestRound(history[..n]);
      if history[n].round > r then history[n].round else r
  }

  ghost function Nearest(d: Descriptor, history: seq<Entry>): (r: Option<real>)
    ensures r.None? <==> history == []
    ensures r.Some? ==> forall i :: 0 <= i < |history| ==> r.value <= SemanticDistance(d, history[i].descriptor)
    ensures r.Some? ==> exists i :: 0 <= i < |history| && r.value == SemanticDistance(d, history[i].descriptor)
  {
    if history == [] then None
    else
      var n := |history| - 1;
      var here := SemanticDistance(d, history[n].descriptor);
      match Nearest(d, history[..n])
      case None => Some(here)
      case Some(x) => Some(Min(x, here))
  }

  ghost function Screen(d: Descriptor, round: int, history: seq<Entry>, policy: Policy): Decision {
    var family := OfFamily(history, d.family);
    if exists i :: 0 <= i < |history| && history[i].descriptor.fingerprint == d.fingerprint then
      Decision(Deferred, Some(0.0), DuplicateFingerprint)
    else if IsExhausted(family, policy) then Decision(Exhausted, None, FamilyExhausted)
    else if family != [] && round - LatestRound(family) <= policy.cooldown then
      Decision(Deferred, None, FamilyCooldown(LatestRound(family)))
    else
      var nearest := Nearest(d, history);
      if nearest.Some? && nearest.value < policy.minimumDistance then Decision(Deferred, nearest, TooClose)
      else Decision(Eligible, nearest, GuardsPassed)
  }

  // Packing

  /** e may stand beside the earlier entry h. */
  ghost predicate Apart(h: Entry, e: Entry, policy: Policy) {
    && h.descriptor.fingerprint != e.descriptor.fingerprint
    && SemanticDistance(h.descriptor, e.descriptor) >= policy.minimumDistance
    && (h.descriptor.family == e.descriptor.family ==> e.round - h.round > policy.cooldown)
  }

  /** All entries are pairwise apart. */
  ghost predicate Packed(history: seq<Entry>, policy: Policy) {
    forall i, j :: 0 <= i < j < |history| ==> Apart(history[i], history[j], policy)
  }

  lemma {:induction false} FamilyMembers(history: seq<Entry>, family: string)
    ensures forall i :: 0 <= i < |history| && history[i].descriptor.family == family ==>
      history[i] in OfFamily(history, family)
    ensures forall e <- OfFamily(history, family) :: e in history && e.descriptor.family == family
  {
    if history != [] {
      FamilyMembers(history[..|history| - 1], family);
    }
  }

  /** The cooldown guard speaks about every entry of the family. */
  lemma CooldownExactly(history: seq<Entry>, family: string, round: int, cooldown: nat)
    ensures var fam := OfFamily(history, family);
      (fam == [] || round - LatestRound(fam) > cooldown) <==>
      forall i :: 0 <= i < |history| && history[i].descriptor.family == family ==> round - history[i].round > cooldown
  {
    var fam := OfFamily(history, family);
    FamilyMembers(history, family);
    if fam != [] {
      var m :| 0 <= m < |fam| && fam[m].round == LatestRound(fam);
      assert fam[m] in history;
      forall i | 0 <= i < |history| && history[i].descriptor.family == family
        ensures history[i].round <= LatestRound(fam)
      {
        var n :| 0 <= n < |fam| && fam[n] == history[i];
      }
    }
  }

  /**
    The screen, exactly: a recipe is eligible if and only if its family is not exhausted and it stands
    apart from every entry of the history, whatever outcome it will be recorded with.
    */
  lemma EligibleExactly(e: Entry, history: seq<Entry>, policy: Policy)
    ensures Screen(e.descriptor, e.round, history, policy).status.Eligible? <==>
      && !IsExhausted(OfFamily(history, e.descriptor.family), policy)
      && forall i :: 0 <= i < |history| ==> Apart(history[i], e, policy)
  {
    CooldownExactly(history, e.descriptor.family, e.round, policy.cooldown);
    forall i | 0 <= i < |history|
      ensures SemanticDistance(history[i].descriptor, e.descriptor)
        == SemanticDistance(e.descriptor, history[i].descriptor)
    {
      DistanceIsSymmetric(history[i].descriptor, e.descriptor);
    }
    if Screen(e.descriptor, e.round, history, policy).status.Eligible? {
      forall i | 0 <= i < |history| ensures Apart(history[i], e, policy) {
      }
    }
  }

  /** Recording an eligible recipe keeps the history packed; recording any other breaks it or is exhausted. */
  lemma GrowthExactly(e: Entry, history: seq<Entry>, policy: Policy)
    requires Packed(history, policy)
    ensures Screen(e.descriptor, e.round, history, policy).status.Eligible? <==>
      Packed(history + [e], policy) && !IsExhausted(OfFamily(history, e.descriptor.family), policy)
  {
    EligibleExactly(e, history, policy);
    var grown := history + [e];
    if Packed(grown, policy) {
      forall i | 0 <= i < |history| ensures Apart(history[i], e, policy) {
        assert Apart(grown[i], grown[|history|], policy);
      }
    }
  }

  /** The history was grown one entry at a time, each screened against what was there before it. */
  ghost predicate GrownByScreen(history: seq<Entry>, policy: Policy) {
    history == []
    || (var front, last := history[..|history| - 1], history[|history| - 1];
        && GrownByScreen(front, policy)
        && Screen(last.descriptor, last.round, front, policy).status.Eligible?)
  }

  lemma {:induction false} GrownStaysApart(history: seq<Entry>, policy: Policy)
    requires GrownByScreen(history, policy)
    ensures Packed(history, policy)
  {
    hide Screen, Apart, OfFamily, IsExhausted, SemanticDistance;
    if history != [] {
      var front, last := history[..|history| - 1], history[|history| - 1];
      GrownStaysApart(front, policy);
      GrowthExactly(last, front, policy);
      assert front + [last] == history;
    }
  }

  lemma ApartIsFar(a: Entry, b: Entry, policy: Policy)
    requires Apart(a, b, policy)
    ensures SemanticDistance(a.descriptor, b.descriptor) >= policy.minimumDistance
    ensures SemanticDistance(b.descriptor, a.descriptor) >= policy.minimumDistance
  {
    DistanceIsSymmetric(a.descriptor, b.descriptor);
  }

  /**
    Diversity packing: such a history has pairwise distinct fingerprints, pairwise semantic distance at
    least the minimum, in either direction, and same-family entries more than the cooldown apart.
    */
  lemma {:induction false} GrownIsPacked(history: seq<Entry>, policy: Policy)
    requires GrownByScreen(history, policy)
    ensures Packed(history, policy)
    ensures forall i, j :: 0 <= i < |history| && 0 <= j < |history| && i != j ==>
      SemanticDistance(history[i].descriptor, history[j].descriptor) >= policy.minimumDistance
  {
    hide Screen, Apart, SemanticDistance, GrownByScreen;
    GrownStaysApart(history, policy);
    forall i, j | 0 <= i < |history| && 0 <= j < |history| && i != j
      ensures SemanticDistance(history[i].descriptor, history[j].descriptor) >= policy.minimumDistance
    {
      if i < j {
        ApartIsFar(history[i], history[j], policy);
      } else {
        ApartIsFar(history[j], history[i], policy);
      }
    }
  }
}
