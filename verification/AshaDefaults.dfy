/** What the ladder comes to with the rungs and seeds a study is created with. */
module AshaDefaults {
  import opened Options
  import opened AshaTypes
  import opened Promotion
  import opened AshaSpec
  import opened AshaOutcomes
  import opened AshaShare
  import opened AshaRecords

  /** One paper in three moves on and at least one; natives only from three on, one in three. */
  lemma DefaultShare(paper: bool, completed: nat, eligible: nat, k: nat)
    requires eligible <= completed
    ensures ShareLaw(DEFAULT_CONFIG, paper, completed, eligible, k) <==>
      var third := completed / 3;
      var slots := if paper && third == 0 then 1 else third;
      k == (if eligible < slots then eligible else slots)
  {
    var factor := DEFAULT_CONFIG.pilot3.reductionFactor;
    assert factor == 3;
    var third := completed / 3;
    var slots := if paper && third == 0 then 1 else third;
    var least := if eligible < slots then eligible else slots;
    assert ShareLaw(DEFAULT_CONFIG, paper, completed, eligible, least);
    if ShareLaw(DEFAULT_CONFIG, paper, completed, eligible, k) {
      ShareIsUnique(DEFAULT_CONFIG, paper, completed, eligible, k, least);
    }
  }

  /** pilot_3 drops what lost more than 0.003, or 0.01 under loss injection, and what the gate rejects. */
  lemma DefaultPilot3(t: Trial)
    requires Counted(t)
    ensures MeetsPilot3(DEFAULT_CONFIG, t) <==>
      && Gain(t) >= (if t.card.lossInjection then -0.01 else -0.003)
      && At(t, P3).value.gate != Some(false)
  {
  }

  /** pilot_10 keeps what gained, passed the gate and improved a target error. */
  lemma DefaultPilot10(s: Study, i: nat, o: Observation)
    requires s.cfg == DEFAULT_CONFIG && i < |s.trials| && o.key == P10 && WholeEvidence(o.evidence)
    ensures var u := Report(s, i, o).trials[i];
      u.status == FullPendingConfirmation <==>
      o.evidence.delta.value > 0.0 && o.evidence.gate == Some(true) && o.evidence.improvedCount >= 1
  {
    hide Report;
    Pilot10Outcome(s, i, o);
  }

  /** 3, 10 and 100 epochs, a tenth of the data for the pilots and all of it for the full runs, seeds 42 to 44. */
  lemma DefaultBudgets(a: Assignment)
    requires RecordFits(DEFAULT_CONFIG, a)
    ensures 1 <= a.key.seed <= 3 && a.seed == 41 + a.key.seed
    ensures a.epochs == (if a.key.stage == Pilot3 then 3 else if a.key.stage == Pilot10 then 10 else 100)
    ensures a.fraction == (if a.key.stage == Pilot3 || a.key.stage == Pilot10 then 0.1 else 1.0)
  {
  }
}
