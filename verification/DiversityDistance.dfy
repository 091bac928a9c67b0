/** What the semantic distance measures, and the screen in terms of the entries of the history. */
module DiversityDistance {
  import opened Options
  import opened Collections
  import opened Reals
  import opened Diversity

  // Two values

  function Size(x: real): real {
    if x < 0.0 then -x else x
  }

  function Larger(x: real, y: real): real {
    if x < y then y else x
  }

  lemma OverOne(x: real)
    ensures x / 1.0 == x
  {
  }

  lemma QuotientTimes(x: real, m: real)
    requires m > 0.0
    ensures x / m * m == x && (x <= m <==> x / m <= 1.0)
  {
  }

  /**
    Two numbers: within [-1, 1] the distance is the difference, and beyond it the difference relative to
    the larger magnitude; never more than 1.
    */
  lemma NumbersApart(x: real, y: real)
    ensures var d, gap, scale := ValueDistance(Number(x), Number(y)), Size(x - y), Larger(Size(x), Size(y));
      if scale <= 1.0 then d == (if gap <= 1.0 then gap else 1.0)
      else if gap <= scale then d * scale == gap
      else d == 1.0
  {
    OverOne(Size(x - y));
    QuotientTimes(Size(x - y), Larger(Larger(Size(x), Size(y)), 1.0));
  }

  /** The number a flag is equal to. */
  function FlagValue(b: bool): real {
    if b then 1.0 else 0.0
  }

  /** Any other two values are equal or not; a flag equals its number, and nothing equals an absent value. */
  lemma OthersApart(a: Value, b: Value)
    requires !(a.Number? && b.Number?)
    ensures var same :=
        if a == Null || b == Null then false
        else if a.Flag? && b.Number? then b.r == FlagValue(a.b)
        else if a.Number? && b.Flag? then a.r == FlagValue(b.b)
        else a == b;
      ValueDistance(a, b) == if same then 0.0 else 1.0
  {
  }

  /** A present value is at no distance from itself. */
  lemma SameValue(a: Value)
    requires a != Null
    ensures ValueDistance(a, a) == 0.0
  {
    if a.Number? {
      NumbersApart(a.r, a.r);
    }
  }

  // Two recipes

  lemma RemovedSize(m: map<string, real>, k: string)
    requires k in m
    ensures |m - {k}| == |m| - 1
  {
    assert (m - {k}).Keys == m.Keys - {k};
  }

  /** A total can be taken apart at any key. */
  lemma {:induction false} TotalAt(m: map<string, real>, k: string)
    requires k in m
    ensures Total(m) == m[k] + Total(m - {k})
    decreases |m|
  {
    var j :| j in m && Total(m) == m[j] + Total(m - {j});
    RemovedSize(m, j);
    if j != k {
      var a, b := m - {j}, m - {k};
      TotalAt(a, k);
      RemovedSize(m, k);
      TotalAt(b, j);
      assert a - {k} == b - {j};
      assert Total(a) == m[k] + Total(a - {k});
      assert Total(b) == m[j] + Total(b - {j});
    }
  }

  lemma {:induction false} TotalNothing(m: map<string, real>)
    requires forall j <- m :: m[j] == 0.0
    ensures Total(m) == 0.0
    decreases |m|
  {
    if m != map[] {
      var j :| j in m && Total(m) == m[j] + Total(m - {j});
      RemovedSize(m, j);
      TotalNothing(m - {j});
    }
  }

  /** The value a recipe changes a key to, or none. */
  function ChangedTo(d: Descriptor, k: string): Value {
    if k in d.changed then d.changed[k] else Null
  }

  /** The keys either recipe changes. */
  function ChangedKeys(a: Descriptor, b: Descriptor): set<string> {
    a.changed.Keys + b.changed.Keys
  }

  /** The recipes set every changed key but k to the same value. */
  predicate DifferAt(a: Descriptor, b: Descriptor, k: string) {
    && k in ChangedKeys(a, b)
    && forall j <- ChangedKeys(a, b) :: j != k ==> ChangedTo(a, j) == ChangedTo(b, j) && ChangedTo(a, j) != Null
  }

  lemma DistancesFacts(a: Descriptor, b: Descriptor)
    ensures var ds := Distances(a.changed, b.changed);
      && ds.Keys == ChangedKeys(a, b) && |ds| == |ChangedKeys(a, b)|
      && forall k <- ds :: ds[k] == ValueDistance(ChangedTo(a, k), ChangedTo(b, k)) && 0.0 <= ds[k] <= 1.0
  {
    hide ValueDistance;
    var ds := Distances(a.changed, b.changed);
    assert ds.Keys == ChangedKeys(a, b);
    forall k | k in ds ensures 0.0 <= ds[k] <= 1.0 {
      ValueDistanceFacts(ChangedTo(a, k), ChangedTo(b, k));
    }
  }

  lemma AtMostOne(total: real, n: real)
    requires 0.0 <= total <= n && n > 0.0
    ensures Min(1.0, total / n) * n == total
  {
    QuotientTimes(total, n);
  }

  lemma MeanOfChanges(a: Descriptor, b: Descriptor)
    requires a.fingerprint != b.fingerprint && a.family == b.family && ChangedKeys(a, b) != {}
    ensures var ds := Distances(a.changed, b.changed);
      |ds| == |ChangedKeys(a, b)| > 0 && SemanticDistance(a, b) == Min(1.0, Total(ds) / |ds| as real)
  {
    hide Total, ValueDistance;
    var ds := Distances(a.changed, b.changed);
    assert ds.Keys == ChangedKeys(a, b);
    var k :| k in ChangedKeys(a, b);
    assert k in ds.Keys;
  }

  /** Different recipes of one family are apart by the mean distance of the values they change. */
  lemma RecipesApart(a: Descriptor, b: Descriptor)
    requires a.fingerprint != b.fingerprint && a.family == b.family && ChangedKeys(a, b) != {}
    ensures |ChangedKeys(a, b)| > 0
    ensures SemanticDistance(a, b) * |ChangedKeys(a, b)| as real == Total(Distances(a.changed, b.changed))
  {
    hide Distances, Total, SemanticDistance, Min, ChangedKeys, ValueDistance;
    var ds := Distances(a.changed, b.changed);
    var total, n, d := Total(ds), |ds| as real, SemanticDistance(a, b);
    DistancesFacts(a, b);
    MeanOfChanges(a, b);
    TotalBounds(ds);
    AtMostOne(total, n);
    assert |ChangedKeys(a, b)| as real == n;
  }

  lemma TimesQuotient(d: real, n: real, x: real)
    requires n > 0.0 && d * n == x
    ensures d == x / n
  {
  }

  lemma TotalOnly(m: map<string, real>, k: string)
    requires k in m && forall j <- m :: j != k ==> m[j] == 0.0
    ensures Total(m) == m[k]
  {
    hide Total;
    TotalAt(m, k);
    TotalNothing(m - {k});
  }

  lemma OthersAgree(a: Descriptor, b: Descriptor, k: string)
    requires DifferAt(a, b, k)
    ensures var ds := Distances(a.changed, b.changed);
      k in ds && Total(ds) == ValueDistance(ChangedTo(a, k), ChangedTo(b, k))
  {
    hide Distances, ValueDistance, Total;
    var ds := Distances(a.changed, b.changed);
    DistancesFacts(a, b);
    assert k in ds.Keys;
    forall j | j in ds && j != k ensures ds[j] == 0.0 {
      assert j in ds.Keys;
      SameValue(ChangedTo(a, j));
    }
    TotalOnly(ds, k);
  }

  lemma SomethingChanged(a: Descriptor, b: Descriptor, k: string)
    requires DifferAt(a, b, k)
    ensures ChangedKeys(a, b) != {}
  {
  }

  /** Different recipes of one family that differ in one of n changed keys are 1/n of that value's distance apart. */
  lemma OneKeyApart(a: Descriptor, b: Descriptor, k: string)
    requires a.fingerprint != b.fingerprint && a.family == b.family && DifferAt(a, b, k)
    ensures |ChangedKeys(a, b)| > 0
    ensures SemanticDistance(a, b) == ValueDistance(ChangedTo(a, k), ChangedTo(b, k)) / |ChangedKeys(a, b)| as real
  {
    hide *;
    SomethingChanged(a, b, k);
    RecipesApart(a, b);
    OthersAgree(a, b, k);
    var d, n, x := SemanticDistance(a, b), |ChangedKeys(a, b)| as real, ValueDistance(ChangedTo(a, k), ChangedTo(b, k));
    assert n > 0.0;
    TimesQuotient(d, n, x);
  }

  /** Equal fingerprints are no distance apart, and different families are as far apart as can be. */
  lemma FarAndNear(a: Descriptor, b: Descriptor)
    ensures a.fingerprint == b.fingerprint ==> SemanticDistance(a, b) == 0.0
    ensures a.fingerprint != b.fingerprint && a.family != b.family ==> SemanticDistance(a, b) == 1.0
  {
    hide Total, Distances;
  }

  lemma TokensShared(a: Descriptor, b: Descriptor)
    requires a.fingerprint != b.fingerprint && a.family == b.family && ChangedKeys(a, b) == {}
    ensures var all, common := a.tokens + b.tokens, a.tokens * b.tokens;
      if all == {} then SemanticDistance(a, b) == 0.0
      else |all| > 0 && SemanticDistance(a, b) == 1.0 - |common| as real / |all| as real
  {
    hide Total, ValueDistance;
    assert Distances(a.changed, b.changed).Keys == {};
    assert Distances(a.changed, b.changed) == map[];
  }

  lemma RestOfOne(x: real, n: real)
    requires n > 0.0
    ensures (1.0 - x / n) * n == n - x
  {
    QuotientTimes(x, n);
  }

  /** Recipes that change nothing are compared by the share of their tokens that they do not have in common. */
  lemma TokensApart(a: Descriptor, b: Descriptor)
    requires a.fingerprint != b.fingerprint && a.family == b.family && ChangedKeys(a, b) == {}
    ensures var all, common := a.tokens + b.tokens, a.tokens * b.tokens;
      if all == {} then SemanticDistance(a, b) == 0.0
      else |all| > 0 && SemanticDistance(a, b) * |all| as real == |all| as real - |common| as real
  {
    hide *;
    TokensShared(a, b);
    var x, n := |a.tokens * b.tokens| as real, |a.tokens + b.tokens| as real;
    if a.tokens + b.tokens != {} {
      RestOfOne(x, n);
    }
  }

  // The screen

  /** The entry is one of the recipe's family. */
  predicate Kin(h: Entry, d: Descriptor) {
    h.descriptor.family == d.family
  }

  function CompletedKin(history: seq<Entry>, d: Descriptor): set<nat> {
    set i | 0 <= i < |history| && Kin(history[i], d) && history[i].completed
  }

  /** The entry really improved something. */
  predicate Gained(h: Entry, policy: Policy) {
    h.improved && (if h.effect == None then 0.0 else h.effect.value) > policy.minimumImprovement
  }

  /** The family has had its attempts, and none of them gained. */
  predicate FamilySpent(history: seq<Entry>, d: Descriptor, policy: Policy) {
    && |CompletedKin(history, d)| >= policy.exhaustionAttempts
    && forall i <- CompletedKin(history, d) :: !Gained(history[i], policy)
  }

  lemma {:induction false} CompletedKinCount(history: seq<Entry>, d: Descriptor)
    ensures CompletedCount(OfFamily(history, d.family)) == |CompletedKin(history, d)|
  {
    if history == [] {
      assert CompletedKin(history, d) == {};
    } else {
      var n := |history| - 1;
      var front, last := history[..n], history[n];
      CompletedKinCount(front, d);
      var before := CompletedKin(front, d);
      if Kin(last, d) && last.completed {
        assert CompletedKin(history, d) == before + {n};
      } else {
        assert CompletedKin(history, d) == before;
      }
      if Kin(last, d) {
        assert (OfFamily(front, d.family) + [last])[..|OfFamily(front, d.family)|] == OfFamily(front, d.family);
      } else {
        assert OfFamily(front, d.family) + [] == OfFamily(front, d.family);
      }
    }
  }

  lemma SpentIsExhausted(history: seq<Entry>, d: Descriptor, policy: Policy)
    ensures IsExhausted(OfFamily(history, d.family), policy) <==> FamilySpent(history, d, policy)
  {
    var fam := OfFamily(history, d.family);
    CompletedKinCount(history, d);
    FamilyMembers(history, d.family);
    if i :| 0 <= i < |fam| && fam[i].completed && Improves(fam[i], policy) {
      assert fam[i] in history;
      var j :| 0 <= j < |history| && history[j] == fam[i];
      assert j in CompletedKin(history, d) && Gained(history[j], policy);
    }
    if i :| i in CompletedKin(history, d) && Gained(history[i], policy) {
      assert history[i] in fam;
      var j :| 0 <= j < |fam| && fam[j] == history[i];
      assert fam[j].completed && Improves(fam[j], policy);
    }
  }

  ghost predicate KnownFingerprint(history: seq<Entry>, d: Descriptor) {
    exists i :: 0 <= i < |history| && history[i].descriptor.fingerprint == d.fingerprint
  }

  /** Some entry of the family is no more than the cooldown ago. */
  ghost predicate CoolingDown(history: seq<Entry>, d: Descriptor, round: int, policy: Policy) {
    exists i :: 0 <= i < |history| && Kin(history[i], d) && round - history[i].round <= policy.cooldown
  }

  /** Some entry is closer than the policy allows. */
  ghost predicate Crowded(history: seq<Entry>, d: Descriptor, policy: Policy) {
    exists i :: 0 <= i < |history| && SemanticDistance(d, history[i].descriptor) < policy.minimumDistance
  }

  lemma CoolingIsRecent(history: seq<Entry>, d: Descriptor, round: int, policy: Policy)
    ensures var fam := OfFamily(history, d.family);
      fam != [] && round - LatestRound(fam) <= policy.cooldown <==> CoolingDown(history, d, round, policy)
  {
    CooldownExactly(history, d.family, round, policy.cooldown);
    if i :| 0 <= i < |history| && Kin(history[i], d) && round - history[i].round <= policy.cooldown {
      FamilyMembers(history, d.family);
    }
  }

  lemma CrowdedIsNear(history: seq<Entry>, d: Descriptor, policy: Policy)
    ensures var near := Nearest(d, history);
      near.Some? && near.value < policy.minimumDistance <==> Crowded(history, d, policy)
  {
    hide SemanticDistance;
  }

  /**
    The screen in words: a known fingerprint is deferred, then a spent family is exhausted, then a family
    that was tried within the cooldown is deferred, then a recipe too close to any entry is deferred; and
    any other recipe is eligible.
    */
  lemma ScreenInWords(history: seq<Entry>, d: Descriptor, round: int, policy: Policy)
    ensures var r := Screen(d, round, history, policy);
      if KnownFingerprint(history, d) then r == Decision(Deferred, Some(0.0), DuplicateFingerprint)
      else if FamilySpent(history, d, policy) then r == Decision(Exhausted, None, FamilyExhausted)
      else if CoolingDown(history, d, round, policy) then
        r.status == Deferred && r.nearest == None && r.reason.FamilyCooldown?
      else if Crowded(history, d, policy) then r.status == Deferred && r.reason == TooClose
      else r.status == Eligible && r.reason == GuardsPassed
  {
    SpentIsExhausted(history, d, policy);
    CoolingIsRecent(history, d, round, policy);
    CrowdedIsNear(history, d, policy);
    hide SemanticDistance, Nearest, FamilySpent, IsExhausted, OfFamily, LatestRound;
  }

  /** The round a cooldown names is the latest one of the family, and a nearest distance is the least one. */
  lemma ScreenReports(history: seq<Entry>, d: Descriptor, round: int, policy: Policy)
    ensures var r := Screen(d, round, history, policy);
      && (r.reason.FamilyCooldown? ==>
            && (exists i :: 0 <= i < |history| && Kin(history[i], d) && history[i].round == r.reason.latest)
            && (forall i :: 0 <= i < |history| && Kin(history[i], d) ==> history[i].round <= r.reason.latest))
      && (r.reason == TooClose || r.reason == GuardsPassed ==>
            && (r.nearest == None <==> history == [])
            && (r.nearest.Some? ==>
                  && (forall i :: 0 <= i < |history| ==> r.nearest.value <= SemanticDistance(d, history[i].descriptor))
                  && (exists i :: 0 <= i < |history| && r.nearest.value == SemanticDistance(d, history[i].descriptor))))
  {
    hide SemanticDistance, IsExhausted;
    var fam := OfFamily(history, d.family);
    FamilyMembers(history, d.family);
    if Screen(d, round, history, policy).reason.FamilyCooldown? {
      var m :| 0 <= m < |fam| && fam[m].round == LatestRound(fam);
      assert fam[m] in history;
      forall i | 0 <= i < |history| && Kin(history[i], d) ensures history[i].round <= LatestRound(fam) {
        assert history[i] in fam;
      }
    }
  }

  /**
    A new recipe of an unspent family past its cooldown that changes one of n keys by too little to be
    the minimum distance from some entry is deferred as too close.
    */
  lemma SmallChangeIsTooClose(history: seq<Entry>, d: Descriptor, round: int, policy: Policy, i: nat, k: string)
    requires i < |history| && Kin(history[i], d) && DifferAt(d, history[i].descriptor, k)
    requires !KnownFingerprint(history, d) && !FamilySpent(history, d, policy)
    requires !CoolingDown(history, d, round, policy)
    requires |ChangedKeys(d, history[i].descriptor)| > 0
    requires ValueDistance(ChangedTo(d, k), ChangedTo(history[i].descriptor, k))
        / |ChangedKeys(d, history[i].descriptor)| as real < policy.minimumDistance
    ensures Screen(d, round, history, policy).status == Deferred
    ensures Screen(d, round, history, policy).reason == TooClose
  {
    hide Screen, SemanticDistance, ValueDistance, FamilySpent, CoolingDown;
    OneKeyApart(d, history[i].descriptor, k);
    assert SemanticDistance(d, history[i].descriptor) < policy.minimumDistance;
    ScreenInWords(history, d, round, policy);
  }
}
