/** The textual identity of an assignment, `{trial_id}:{stage_id}:seed{seed_index}`. */
module AssignmentIds {
  import opened AshaTypes

  function StageName(s: Stage): string {
    match s
    case Pilot3 => "pilot_3"
    case Pilot10 => "pilot_10"
    case FullSeed1 => "candidate_full_seed_1"
    case FullConfirmation => "candidate_full_confirmation"
  }

  function Digit(d: nat): char
    requires d < 10
  {
    '0' + d as char
  }

  function Decimal(n: nat): (s: string)
    ensures s != []
  {
    if n < 10 then [Digit(n)] else Decimal(n / 10) + [Digit(n % 10)]
  }

  function AssignmentId(trialId: string, k: Key): string {
    (trialId + ":" + StageName(k.stage)) + ":" + ("seed" + Decimal(k.seed))
  }

  lemma {:induction false} DecimalInjective(m: nat, n: nat)
    requires Decimal(m) == Decimal(n)
    ensures m == n
  {
    var s := Decimal(m);
    assert s[|s| - 1] == Digit(m % 10) == Digit(n % 10);
    if m >= 10 && n >= 10 {
      assert Decimal(m / 10) == s[..|s| - 1] == Decimal(n / 10);
      DecimalInjective(m / 10, n / 10);
    }
  }

  lemma {:induction false} DecimalHasNoColon(n: nat)
    ensures ':' !in Decimal(n)
  {
    if n >= 10 {
      DecimalHasNoColon(n / 10);
    }
  }

  lemma StageNameFacts(s: Stage, s': Stage)
    ensures ':' !in StageName(s)
    ensures StageName(s) == StageName(s') ==> s == s'
  {
    assert |StageName(Pilot3)| == 7 && |StageName(Pilot10)| == 8;
    assert |StageName(FullSeed1)| == 21 && |StageName(FullConfirmation)| == 27;
  }

  /** Splitting at the last colon is unambiguous. */
  lemma SplitAtLastColon(a: string, b: string, a': string, b': string)
    requires a + ":" + b == a' + ":" + b'
    requires ':' !in b && ':' !in b'
    ensures a == a' && b == b'
  {
    var w := a + ":" + b;
    assert w[|a|] == ':' && w[|a'|] == ':';
    assert forall i :: |a| < i < |w| ==> w[i] == b[i - |a| - 1];
    assert forall i :: |a'| < i < |w| ==> w[i] == b'[i - |a'| - 1];
    assert a == w[..|a|] == a';
    assert b == w[|a| + 1..] == b';
  }

  /** Two assignments share an id only when they are for the same trial, stage and seed. */
  lemma AssignmentIdInjective(t: string, k: Key, t': string, k': Key)
    ensures AssignmentId(t, k) == AssignmentId(t', k') <==> t == t' && k == k'
  {
    if AssignmentId(t, k) == AssignmentId(t', k') {
      var b, b' := "seed" + Decimal(k.seed), "seed" + Decimal(k'.seed);
      DecimalHasNoColon(k.seed);
      DecimalHasNoColon(k'.seed);
      SplitAtLastColon(t + ":" + StageName(k.stage), b, t' + ":" + StageName(k'.stage), b');
      assert Decimal(k.seed) == b[4..] == b'[4..] == Decimal(k'.seed);
      DecimalInjective(k.seed, k'.seed);
      StageNameFacts(k.stage, k'.stage);
      StageNameFacts(k'.stage, k.stage);
      SplitAtLastColon(t, StageName(k.stage), t', StageName(k'.stage));
    }
  }
}
