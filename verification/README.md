# A verified model of the ASHA budget scheduler and its neighbours

This project models, in Dafny, the parts of the repository that decide what is trained next and what
may be believed afterwards, and proves what they promise over whole runs.

- **The ASHA scheduler** (`yolo_agent/agents/asha_scheduler.py`) is a persistent state machine over
  trials and training assignments. Every trial climbs a ladder of four rungs: `pilot_3`, `pilot_10`,
  full seed 1 and the confirmation seeds. Trials are adapter-backed paper methods or native knobs;
  paper work pre-empts native work.
- **Confirmation of full runs** (`confirmation_workflow.py`, `confirmation_resume.py`,
  `confirmation_approval.py`, `seed_confirmation.py`) executes a fixed matrix of runs behind a
  single-use approval, and survives failures and process deaths.
- **Three smaller algorithms**: the family round robin of the budget optimizer, the diversity screen
  that keeps a growing history spread out, and the bounded autonomous loop with its decision function.

`dafny verify dfyconfig.toml` checks everything.

## How the project is laid out

| files | content |
|---|---|
| `AshaTypes`, `AssignmentIds`, `StableSort` | data, observation lists, textual assignment ids, the stable descending sort |
| `Options`, `Collections`, `Reals` | small shared definitions |
| `Promotion`, `AshaSpec`, `Registration`, `Confidence` | what each scheduler operation does, as functions of the study; the confidence test without roots |
| `AshaScheduler` | the scheduler object: methods that update its lists step by step, proved equal to those functions |
| `AshaBookkeeping`, `AshaCalls` | what every public call keeps, from every valid study |
| `AshaLadder`, `AshaSteps`, `AshaRuns` | the ladder invariant, its preservation, and whole runs |
| `AshaOffers`, `AshaOutcomes`, `AshaShare`, `AshaClaims`, `AshaRecords`, `RegistrationOutcomes`, `AshaDefaults` | what each operation does in terms of statuses, evidence, records and sets of trials, without the functions that compute it |
| `AshaSafety`, `AshaAllocation`, `AshaPromotion`, `AshaConfluence`, `AshaInterleaving`, `AshaStranding`, `AshaStarvation` | the theorems about runs |
| `AshaReissue`, `AshaReopening`, `AshaRevival`, `AshaReservations` | what goes wrong outside disciplined runs, and exactly when |
| `AshaResume`, `AshaDriver` | the loop that drives the scheduler object, with process deaths |
| `ConfirmationSpec`, `ConfirmationSafety`, `ConfirmationPlays`, `ConfirmationEvidence`, `ConfirmationMatrix`, `ConfirmationWorkflow` | the confirmation matrix: functions, theorems, methods |
| `BudgetOrder`, `BudgetOptimizer`, `Diversity`, `DiversityDistance`, `LoopDecision`, `AutonomousLoop`, `LoopVerdicts` | the smaller algorithms |

An observation's key is a stage and a 1-based seed index. Delta arithmetic is over `real`.

## Disciplined runs

The scheduler's stronger promises hold for its intended use, which `AshaRuns.Disciplined` spells out.
A run starts from an empty study and is any sequence of four kinds of event: enrolling a new trial,
asking for the next assignment with either flag, claiming an issued or running assignment, and
delivering a report. A report either answers an issued or running assignment of that trial, stage and
seed, or redoes a key of the stage at which a trial needs evidence. A crash needs no event of its own:
the next process asks again. New trials may be enrolled at any time, so nothing depends on a fixed
cohort. `complete_evidence_only_trial`, `fail_matched_control`, pre-registration and re-registration
are not part of disciplined runs; `AshaCalls` states what survives them in any order.

## Where the code differs from what is said about it

The model follows the code. In these places the code does not do what a comment, a docstring or a
reader would expect:

- `trial_for_execution_fingerprint` is documented to return the single trial of a fingerprint. Two
  trials can share one (`Registration.NativeDuplicate`); `Registration.FingerprintsStayUniqueExactly`
  gives the exact condition, `AshaCalls.AnyCallsKeepFingerprints` the consequence for any sequence of calls.
- A paper trial left `waiting` after `pilot_3` counts as pending work for ever, so a native trial can be
  offered nothing although it never ran (`AshaStarvation.NativeStarves`, `NativesStarveExactly`).
- Only a usable `pilot_3` report triggers the promotion refresh, so trials that a refresh would promote can
  be left behind for two reasons: the last report the class was waiting for failed or was incomplete
  (`AshaStranding.LastOwerStrands`, reached in `AshaStarvation.NativeStarves`), or a promoted trial failed
  or was eliminated further up and its slot became free (`AshaStranding.FreedSlotStrands`, reached in
  `AshaStarvation.SlotIsLost`). `AshaStranding.StrandsExactly` says for every report whom it strands.
- `next_assignment` is documented never to reissue completed allocations. That holds in disciplined runs
  (`AshaRuns.NextOffersUntrained`). Outside them a completed allocation comes back only after a call of one
  of these kinds (`AshaReopening.ConsumedStaysConsumed`): a registration that queues again a reservation
  which has consumed a key without evidence; a report that keeps such a trial on the ladder; `pilot_10`
  evidence that passes although full seed 1 has been consumed; and a claim of a deferred assignment of such
  a trial. The exact conditions are in `CallKeepsCleanExactly`, `RegisterSpendsExactly` and
  `Pilot10SpendsExactly`, and `AshaReissue.ConsumedComesBack` gets there from an empty study.
- `pre_register_trial` is documented to make an identity that `next_assignment` never returns. It does not
  close what is already issued or running for the trial, and that is still returned
  (`AshaReservations.ReservedIsReturned`, exact condition in `ReservedReturnedExactly`).
- `mark_running` accepts a deferred assignment, which can put a second allocation of a kind to work
  (`AshaRevival.TwoPilotsAtOnce` from an empty study, `AshaCalls.RevivalBreaksExactly` for when).
- `consume_approval` says the request is spent when the launch begins; the workflow spends it only after
  the matrix is complete (`ConfirmationPlays.ReturnsAtMostOnce`).
- The matrix validator compares sets of (role, seed), so a seed listed twice is accepted and yields two
  runs with one key (`ConfirmationMatrix.CreatedIsAccepted`). A key always finds its first run, so such a
  matrix can never be finished, in however many invocations (`ConfirmationMatrix.FinishableExactly`).
- A comment in the autonomous loop says that a rolled-back action stays untried. It is in the tried set
  and in the banned set, and no later round executes it (`AutonomousLoop.ExecutionsCount`).
- The loop passes `untried[1:]` on as the actions still supported. When a paper action further back was
  chosen, that list contains the chosen action and omits the first untried one
  (`LoopVerdicts.ChosenStaysSupportedExactly`). Every decision is still the one that the right list would
  give (`LoopVerdicts.ExecutedAsIfRemaining`).
- `pareto_score` says that axes are relative and units cannot swamp each other. An axis with a zero
  baseline is absolute (`LoopDecision.UnitFreeExactly`).
- `decide_next_round` lists `reject`, `collect_data` and `request_annotation` among its outcomes and
  never produces them (`LoopVerdicts.VerdictsProduced`); the loop's branches for `reject` and
  `request_annotation` are modelled all the same.

## Model

| member | source | states |
|---|---|---|
| `AshaRuns.ReachableInv` | yolo_agent/agents/asha_scheduler.py:649-786 | every state of every disciplined run satisfies the ladder invariant: status, pending rung, evidence and allocation records of each trial fit together |
| `AshaRuns.RunTrainsEachKeyOnce` | yolo_agent/agents/asha_scheduler.py:649-751 | whatever the interleaving of crashes, claims, reports and redone evidence, no (trial, stage, seed) is trained twice and T trials with S seeds are trained at most T * (S + 2) times |
| `AshaRuns.NextOffersUntrained` | yolo_agent/agents/asha_scheduler.py:722-751 | every assignment handed out is open, recorded, and for a key without any observation; full-run keys only with the flag |
| `AshaRuns.TrainingsAreFresh` | yolo_agent/agents/asha_scheduler.py:649-691 | the keys a run trains are pairwise different and none was observed before the run |
| `AshaRuns.StepEvidence` | yolo_agent/agents/asha_scheduler.py:649-691 | the number of observations grows by exactly one when a report answers an open allocation and by nothing on any other step, redone evidence included |
| `AshaRuns.EvidenceBound` | yolo_agent/agents/asha_scheduler.py:1068-1102 | one trial never holds more observations than its ladder has keys, S + 2 |
| `AshaSafety.LadderSafety` | yolo_agent/agents/asha_scheduler.py:915-1031 | every allocation that exists, at any status, belongs to a trial whose lower rungs hold complete accepted evidence: pilot_3 at or above the noise floor and not gate-rejected, pilot_10 with passed gate and, where the rung asks for them as the default one does, positive delta and an improved target, full seed 1 with positive delta and gate |
| `AshaSafety.StandingIsEarned` | yolo_agent/agents/asha_scheduler.py:915-1031 | a trial that is still climbing has the evidence its rung requires |
| `AshaSafety.ConfirmedIsSound` | yolo_agent/agents/asha_scheduler.py:1033-1066 | a confirmed trial has an observation for every configured seed, all with positive delta and passed gate, and the lower end of the interval over exactly those deltas is positive |
| `AshaSafety.ConfirmIgnoresSeedOrder` | yolo_agent/agents/asha_scheduler.py:1033-1066 | the confirmation verdict does not depend on the order of the seeds |
| `AshaSafety.ConfirmIgnoresScale` | yolo_agent/agents/asha_scheduler.py:1033-1066 | the confirmation verdict does not change when every delta is multiplied by one positive factor |
| `AshaSafety.ConfirmKeptByGain` | yolo_agent/agents/asha_scheduler.py:1033-1066 | adding one nonnegative constant to every delta never undoes a confirmation |
| `AshaOutcomes.ReportFiles` | yolo_agent/agents/asha_scheduler.py:652-660 | a report files its evidence at its own key and changes nothing else that is known of the trial |
| `AshaOutcomes.ReportCloses` | yolo_agent/agents/asha_scheduler.py:900-913 | the record of the reported key is completed, or failed if the report failed, and keeps the node it was bound to first; every other record stays |
| `AshaOutcomes.ReportNotWhole` | yolo_agent/agents/asha_scheduler.py:661-680 | a failed report fails the trial with its reason; incomplete, unverified or delta-less evidence has it wait at the reported rung |
| `AshaOutcomes.Pilot3Outcome` | yolo_agent/agents/asha_scheduler.py:931-956 | whole pilot_3 evidence eliminates for the first of noise floor, positive delta where required and rejected gate that it fails, and otherwise the trial waits or has moved on |
| `AshaOutcomes.Pilot10Outcome` | yolo_agent/agents/asha_scheduler.py:993-1014 | whole pilot_10 evidence moves the trial on exactly with a positive delta where required, a passed gate and at least one improved target error where required, and otherwise eliminates it for the first of these it fails |
| `AshaOutcomes.FullSeed1Outcome` | yolo_agent/agents/asha_scheduler.py:1016-1031 | whole full seed 1 evidence moves the trial on exactly with a positive delta and a passed gate, and otherwise eliminates it for the first it fails |
| `AshaOutcomes.ConfirmationOutcome` | yolo_agent/agents/asha_scheduler.py:1033-1066 | with a seed missing the trial waits for it; then it is confirmed exactly if every seed gained and passed the gate and the interval over exactly their deltas lies above zero, and eliminated for the first of these that fails |
| `AshaConfluence.AnyOrderSameStudy` | yolo_agent/agents/asha_scheduler.py:649-692 | from any study, usable pilot_3 reports of distinct trials delivered one after the other in any two orders leave the same study: statuses, rungs, reasons, evidence and assignment records |
| `AshaInterleaving.AnyInterleavingSameTrials` | yolo_agent/agents/asha_scheduler.py:649-786 | two disciplined runs from one reachable study that deliver the same good pilot_3 reports, in any two orders and with any requests and claims in between, end with the same trials: cards, evidence, reasons and standing at rest, that is, apart from which allocation is being worked on |
| `AshaInterleaving.RestRefresh` | yolo_agent/agents/asha_scheduler.py:915-991 | refreshing and putting running trials to rest can be exchanged |
| `AshaConfluence.DeliverAllFiles` | yolo_agent/agents/asha_scheduler.py:915-991 | delivering a batch one report at a time, refreshing after each, is the same as filing all of it and refreshing once |
| `AshaConfluence.Absorb` | yolo_agent/agents/asha_scheduler.py:915-991 | a refresh before a usable pilot_3 report leaves no trace once the report has been delivered |
| `AshaSteps.ReportKeepsInv` | yolo_agent/agents/asha_scheduler.py:649-692 | a report that answers an open allocation or redoes needed evidence keeps the ladder invariant |
| `AshaSteps.ReportElsewhere` | yolo_agent/agents/asha_scheduler.py:680-683 | a report changes another trial only by promoting it from rest after pilot_3; nobody else is demoted or touched |
| `AshaSteps.NextKeepsInv` | yolo_agent/agents/asha_scheduler.py:722-751 | asking for work keeps the ladder invariant, deferral of native work included |
| `AshaSteps.MarkKeepsInv` | yolo_agent/agents/asha_scheduler.py:753-786 | claiming an outstanding assignment keeps the ladder invariant |
| `AshaDriver.Drive` | yolo_agent/agents/paper_candidate_orchestrator.py:505-602 | the ask, claim, train, report loop with any finite number of process deaths ends; it is a disciplined run, trains no key twice, ends in the study and with the training sequence of a driver that never dies, and stops only when nothing is offered, so with full runs authorized every trial in scope is settled |
| `AshaResume.ClaimSucceeds` | yolo_agent/agents/asha_scheduler.py:753-786 | a restarted driver that derives run and node names from the allocation can always claim what it is offered |
| `AshaResume.ClaimingLeavesNoTrace` | yolo_agent/agents/asha_scheduler.py:722-786 | a process that dies after claiming changes nothing for the next one: the same allocation is recovered, the second claim changes nothing, and the pass ends in the same study with the same training |
| `AshaOffers.NextResumes` | yolo_agent/agents/asha_scheduler.py:812-835 | the first record that is issued or running, allowed by the flag and, while paper work is pending, of a paper trial, is returned as it is |
| `AshaOffers.NextServes` | yolo_agent/agents/asha_scheduler.py:722-751 | with nothing to resume, nothing is returned exactly when nobody in scope wants an allocation, and otherwise the most urgent wish is served: confirmation seeds before full seed 1 before pilot_3 before pilot_10, papers before natives, then registration order |
| `AshaOffers.NextLeavesTrial` | yolo_agent/agents/asha_scheduler.py:863-879 | only native trials with open assignments are moved, back to the rung of such an assignment, and only to make way for paper work |
| `AshaOffers.NextLeavesRecord` | yolo_agent/agents/asha_scheduler.py:1077-1102 | a record is put aside to make way, reopened unbound when it is returned, or left as it is; at most the returned one is added |
| `AshaOffers.ChoiceIsWanted` | yolo_agent/agents/asha_scheduler.py:1068-1075 | the allocation the ladder offers a trial is exactly the one it waits for, in terms of status, rung and observations |
| `AshaRecords.CalledRecordsFit` | yolo_agent/agents/asha_scheduler.py:1077-1102 | over any sequence of public calls every record trains the configured seed of its own index, for the candidate of its trial, with the epochs and data fraction of its own rung |
| `AshaRecords.RunRecordsFit` | yolo_agent/agents/asha_scheduler.py:1077-1102 | the same over every disciplined run |
| `AshaRecords.CallKeepsWork` | yolo_agent/agents/asha_scheduler.py:649-831 | no call changes what a record trains; what is added is issued, unbound and fit |
| `AshaRecords.ConfirmedOnEverySeed` | yolo_agent/agents/asha_scheduler.py:1033-1066 | the full runs of a confirmed trial are exactly one consumed record for each configured seed, on pairwise different seeds when the configured ones are |
| `AshaReservations.ReservedReturnedExactly` | yolo_agent/agents/asha_scheduler.py:812-835 | a trial that needs evidence is returned exactly when the first record to be resumed is one of its own |
| `AshaReservations.ReservedIsReturned` | yolo_agent/agents/asha_scheduler.py:561-647 | three public calls after which a pre-registered trial is returned |
| `AshaAllocation.NextIsStable` | yolo_agent/agents/asha_scheduler.py:722-751 | asking twice with the same flag returns the same assignment and the second call changes nothing |
| `AshaAllocation.NoFullReturned` | yolo_agent/agents/asha_scheduler.py:812-835 | without the flag no candidate_full assignment is returned |
| `AshaAllocation.NoFullCreated` | yolo_agent/agents/asha_scheduler.py:722-751 | without the flag no candidate_full assignment record is created |
| `AshaAllocation.PaperFirst` | yolo_agent/agents/asha_scheduler.py:837-879 | while paper work is pending only assignments of paper trials are handed out |
| `AshaAllocation.DeferredComesBack` | yolo_agent/agents/asha_scheduler.py:1077-1102 | the ladder offers a deferred trial exactly the deferred key again, and issuing it reopens the same record with its bindings cleared |
| `AshaAllocation.DeferredPersists` | yolo_agent/agents/asha_scheduler.py:863-879 | in every disciplined step a deferred record stays deferred or is reissued; it is never lost or consumed |
| `AshaAllocation.QuiescentExactly` | yolo_agent/agents/asha_scheduler.py:722-751 | with the flag, nothing is offered if and only if every trial in scope is confirmed, eliminated, failed, in need of evidence, or waiting with pilot_3 observed |
| `AshaAllocation.QuiescentSingleClass` | yolo_agent/agents/asha_scheduler.py:722-751 | in a study of one class a disciplined run is offered nothing if and only if every trial is settled in that sense |
| `AshaStarvation.NativesStarveExactly` | yolo_agent/agents/asha_scheduler.py:837-861 | once all papers are settled, an unsettled native trial is offered nothing exactly when some paper trial is waiting |
| `AshaStarvation.NativeStarves` | yolo_agent/agents/asha_scheduler.py:667-683 | a disciplined run that starves a native trial: a failed pilot_3 report does not refresh, so a paper trial that a refresh would promote stays waiting and holds the native one off |
| `AshaStarvation.SlotIsLost` | yolo_agent/agents/asha_scheduler.py:993-1014 | a second such run: the winner of the only slot is eliminated at pilot_10, and the paper trial that a refresh would now promote stays waiting |
| `AshaStranding.StrandedExactly` | yolo_agent/agents/asha_scheduler.py:915-991 | under the ladder invariant a refresh would change a trial if and only if it is eligible and promotable, nobody of its class owes pilot_3, and it has fewer rivals than the class has slots |
| `AshaStranding.StrandsExactly` | yolo_agent/agents/asha_scheduler.py:667-692 | for every permitted report that does not refresh, at any rung: a classmate is left stranded if and only if, on the study before the report, nobody else owes pilot_3, it is eligible and promotable, and it ranks within the slots of the class with the reporter counted as far as it delivered and passed |
| `AshaStranding.LastOwerStrands` | yolo_agent/agents/asha_scheduler.py:667-683 | the first cause: a failed or incomplete pilot_3 report strands exactly the promotable classmates within the slots of the class as it stood, and only if nobody else owes pilot_3; before it nobody was stranded |
| `AshaStranding.FreedSlotStrands` | yolo_agent/agents/asha_scheduler.py:993-1031 | the second cause: a failed, incomplete or eliminating report above pilot_3 frees a slot without a refresh and strands exactly those who rank within the slots of the class without the reporter |
| `AshaStranding.KeptSlotStrandsNobody` | yolo_agent/agents/asha_scheduler.py:993-1031 | a report above pilot_3 that delivers and passes strands nobody who was not stranded before |
| `AshaReopening.ConsumedStaysConsumed` | yolo_agent/agents/asha_scheduler.py:304-831 | from an empty study and over any sequence of any public calls, arbitrary reports included, next_assignment never returns a completed or failed assignment as long as no call is one of the reopening ones |
| `AshaReopening.CallKeepsCleanExactly` | yolo_agent/agents/asha_scheduler.py:304-831 | call by call and in both directions: a call lets a trial with a consumed but unobserved key back on the ladder, or sends one to a rung it has consumed, if and only if it is a reopening call, which can be told before it is made |
| `AshaReopening.RegisterSpendsExactly` | yolo_agent/agents/asha_scheduler.py:430-495 | from any valid study, registering a known trial leaves it waiting with its next key consumed if and only if pilot_3 is consumed without an observation, the circuit breaker does not fire, and the trial is a reservation or was queued for pilot_3 already |
| `AshaReopening.ReservationSpendsExactly` | yolo_agent/agents/asha_scheduler.py:463-480 | where no trial is queued for a consumed key yet, that happens exactly to a reservation with pilot_3 consumed and unobserved when the circuit breaker does not fire |
| `AshaReopening.Pilot10SpendsExactly` | yolo_agent/agents/asha_scheduler.py:993-1014 | from any valid study, pilot_10 evidence leaves the next key consumed if and only if it is usable, passes the guards, and full seed 1 has been consumed |
| `AshaReopening.RepeatedPilot10Spends` | yolo_agent/agents/asha_scheduler.py:649-692 | in a disciplined study, delivering a trial its own pilot_10 evidence again after full seed 1 is consumed always does so; disciplined runs do not permit that report |
| `AshaReissue.ConsumedComesBack` | yolo_agent/agents/asha_scheduler.py:463-480 | four public calls after which next_assignment returns a completed assignment: registering an evidence-only trial again queues it for the key it has consumed |
| `AshaShare.RefreshInWords` | yolo_agent/agents/asha_scheduler.py:915-991 | the refresh of a trial in terms of sets of trials: eliminated for the first failed condition of its evidence, moved on exactly if it waits without pilot_10 evidence, nobody of its class owes pilot_3 and fewer standing classmates than the share are ahead of it, and unchanged otherwise |
| `AshaShare.ShareIsUnique` | yolo_agent/agents/asha_scheduler.py:974-979 | the law of the share, which computes nothing, leaves one number: no more than stand, no more than one in reductionFactor except for the floor, as many as that allows, and natives only from the minimum cohort |
| `AshaShare.SlotsObeyLaw` | yolo_agent/agents/asha_scheduler.py:974-981 | the slots computed for a class obey that law |
| `AshaShare.ShareIsRanked` | yolo_agent/agents/asha_scheduler.py:974-991 | exactly that many standing trials of a class are ranked within the share |
| `AshaDefaults.DefaultShare` | yolo_agent/agents/asha_scheduler.py:1336-1376 | with the default rungs one counted paper in three moves on and at least one, and natives only from three on |
| `AshaDefaults.DefaultPilot3` | yolo_agent/agents/asha_scheduler.py:1336-1376 | with the default rungs pilot_3 drops what lost more than 0.003, or 0.01 under loss injection, and what the gate rejected |
| `AshaDefaults.DefaultPilot10` | yolo_agent/agents/asha_scheduler.py:1336-1376 | with the default rungs pilot_10 keeps exactly what gained, passed the gate and improved a target error |
| `AshaDefaults.DefaultBudgets` | yolo_agent/agents/asha_scheduler.py:1336-1376 | with the default configuration a record trains seed 42, 43 or 44 by its index, for 3, 10 or 100 epochs on a tenth or all of the data |
| `AshaPromotion.RefreshExactly` | yolo_agent/agents/asha_scheduler.py:915-991 | the refresh in closed form: the own guard, then promotion exactly for waiting trials without pilot_10 evidence with fewer better-ranked eligible classmates than slots |
| `AshaPromotion.BarrierHolds` | yolo_agent/agents/asha_scheduler.py:957-971 | while anybody in the class owes pilot_3 the refresh only applies the guards |
| `AshaShare.PromotedAtMostShare` | yolo_agent/agents/asha_scheduler.py:974-991 | one refresh takes at most as many trials of a class to pilot_10 as the law allows; over a run a slot freed by an elimination is used again at a later refresh |
| `AshaPromotion.PromotedAreBest` | yolo_agent/agents/asha_scheduler.py:982-991 | a promoted trial has a delta at least as large as every eligible trial outside the slots; ties go to the earlier registration |
| `AshaPromotion.WinsByRank` | yolo_agent/agents/asha_scheduler.py:982-987 | sorting by delta and cutting at the slots selects exactly the eligible trials with fewer rivals than slots |
| `Promotion.RefreshIdempotent` | yolo_agent/agents/asha_scheduler.py:915-991 | refreshing twice is refreshing once, from any state |
| `Promotion.RefreshByClass` | yolo_agent/agents/asha_scheduler.py:917-921 | what the refresh does to a trial is decided inside its own class, although both classes are processed in one pass |
| `Promotion.RefreshAt` | yolo_agent/agents/asha_scheduler.py:931-991 | each trial ends as its guarded self or promoted from it |
| `StableSort.SortDescCorrect` | yolo_agent/agents/asha_scheduler.py:982-986 | the ranking permutes, orders by descending key and keeps registration order among equal keys |
| `StableSort.CutKeepsBest` | yolo_agent/agents/asha_scheduler.py:982-987 | cutting the ranking at n keeps exactly the entries with fewer than n entries ranked ahead |
| `AshaCalls.AnyCallsKeepTheBooks` | yolo_agent/agents/asha_scheduler.py:304-831 | after any sequence of any public calls: unique trial ids and records, statuses fitting their rungs, running trials with a running record, one observation per key; trials keep their id, eligible ones their fingerprint and readiness, and provenance only grows |
| `AshaCalls.AnyCallsKeepSingle` | yolo_agent/agents/asha_scheduler.py:722-786 | after any calls at most one pilot and one candidate_full assignment is issued or running, provided mark_running never revives a deferred record |
| `AshaCalls.RevivalBreaksExactly` | yolo_agent/agents/asha_scheduler.py:753-786 | reviving a deferred record breaks that rule exactly when another assignment of its kind is issued or running |
| `AshaRevival.TwoPilotsAtOnce` | yolo_agent/agents/asha_scheduler.py:753-786 | five public calls from an empty study after which two pilot assignments are being worked on: a native one is put aside for a paper one and then claimed |
| `AshaCalls.RegistrationEnrolls` | yolo_agent/agents/asha_scheduler.py:497-559 | a registration that appends a trial is the enrolment step of a disciplined run |
| `AshaBookkeeping.ReportKeepsValid` | yolo_agent/agents/asha_scheduler.py:649-692 | a report keeps the bookkeeping invariant and the single-outstanding rule from every valid study |
| `AshaBookkeeping.NextKeepsValid` | yolo_agent/agents/asha_scheduler.py:722-751 | asking for work keeps both from every valid study |
| `AshaBookkeeping.MarkKeepsValid` | yolo_agent/agents/asha_scheduler.py:753-786 | claiming keeps the invariant, and the single-outstanding rule unless a deferred record is revived |
| `AshaBookkeeping.CompleteKeepsValid` | yolo_agent/agents/asha_scheduler.py:788-810 | consuming an evidence-only trial keeps both |
| `AshaBookkeeping.FailControlKeepsValid` | yolo_agent/agents/asha_scheduler.py:694-720 | failing a matched control keeps both |
| `AshaClaims.UnknownIsRefused` | yolo_agent/agents/asha_scheduler.py:753-765 | a claim is refused as unknown exactly when no record has its trial and key |
| `AshaClaims.ClaimExactly` | yolo_agent/agents/asha_scheduler.py:766-786 | the claim of a record: refused when consumed, refused when running and bound to another run or node than named, and otherwise bound to what it was bound to first with its trial running at its rung; nothing else changes |
| `AshaClaims.CompletionExactly` | yolo_agent/agents/asha_scheduler.py:788-810 | completing an evidence-only trial closes exactly its issued and running records and the trial itself |
| `AshaClaims.ControlFailureExactly` | yolo_agent/agents/asha_scheduler.py:694-720 | a failed control parks exactly the trials whose plan has its protocol, keeps their evidence and names the cause |
| `AshaTypes.RecordLookup` | yolo_agent/agents/asha_scheduler.py:652-660 | recording an observation replaces exactly the one at its own key |
| `AshaTypes.RecordUnique` | yolo_agent/agents/asha_scheduler.py:652-660 | recording keeps at most one observation per key and grows the list only for a new key |
| `AssignmentIds.AssignmentIdInjective` | yolo_agent/agents/asha_scheduler.py:189-195 | the textual assignment id determines the trial, stage and seed, even for trial ids that contain colons |
| `Registration.RegisterKeepsValid` | yolo_agent/agents/asha_scheduler.py:304-559 | registration keeps the bookkeeping invariant |
| `Registration.PreRegisterKeepsValid` | yolo_agent/agents/asha_scheduler.py:561-647 | pre-registration keeps the bookkeeping invariant |
| `Registration.RegisterKeepsIdentity` | yolo_agent/agents/asha_scheduler.py:430-495 | registration keeps ids, the fingerprint and readiness of eligible trials, and existing provenance |
| `Registration.PreRegisterKeepsIdentity` | yolo_agent/agents/asha_scheduler.py:592-622 | pre-registration keeps them too |
| `RegistrationOutcomes.AdmittedExactly` | yolo_agent/agents/asha_scheduler.py:329-430 | a registration is admitted exactly when it is not inference only, a resolved fingerprint is a SHA-256 digest bound to a paper candidate, a paper candidate is eligible or an honest shadow without blockers, readiness and blockers agree, and a required control plan is ready |
| `RegistrationOutcomes.RefusedFor` | yolo_agent/agents/asha_scheduler.py:329-430 | which of the errors a refused registration gets |
| `RegistrationOutcomes.BoundIsRefused` | yolo_agent/agents/asha_scheduler.py:431-450 | an id held by a trial that is not closed for another execution is refused |
| `RegistrationOutcomes.RegisterKnown` | yolo_agent/agents/asha_scheduler.py:456-495 | under an id that a trial holds: a reservation is queued as eligible with the node of the registration, another execution or another control is refused, and a known trial gains provenance and a missing plan |
| `RegistrationOutcomes.RegisterSameExecution` | yolo_agent/agents/asha_scheduler.py:497-528 | a paper candidate under an unheld id falls on the first trial with its execution |
| `RegistrationOutcomes.RegisterNew` | yolo_agent/agents/asha_scheduler.py:530-559 | any other admitted candidate becomes a new queued trial with exactly the requested labels |
| `RegistrationOutcomes.BreakerInWords` | yolo_agent/agents/asha_scheduler.py:281-302 | a waiting paper trial is failed exactly when two other trials of its candidate have failed in their adapter, and the reason counts them |
| `RegistrationOutcomes.PreRegisterKnown` | yolo_agent/agents/asha_scheduler.py:592-622 | a reservation falls on the first trial with its id or execution and parks it unless it is eligible, keeping its evidence |
| `RegistrationOutcomes.PreRegisterNew` | yolo_agent/agents/asha_scheduler.py:623-647 | otherwise a new trial is reserved, and inference-only candidates are refused |
| `Registration.FingerprintsStayUniqueExactly` | yolo_agent/agents/asha_scheduler.py:258-271 | one fingerprint stays one trial if and only if the registration neither refreshes a reservation to a fingerprint held elsewhere nor appends a native candidate with a held one |
| `AshaCalls.CallKeepsUniqueExactly` | yolo_agent/agents/asha_scheduler.py:258-271 | any call keeps fingerprints unique if and only if it is not a colliding registration; pre-registration never collides |
| `AshaCalls.AnyCallsKeepFingerprints` | yolo_agent/agents/asha_scheduler.py:258-271 | over any sequence of public calls without a colliding registration one fingerprint names one trial |
| `Registration.NativeDuplicate` | yolo_agent/agents/asha_scheduler.py:497-503 | two native candidates with one payload become two trials with one fingerprint |
| `Confidence.LowerBoundMeaning` | yolo_agent/agents/asha_scheduler.py:1434-1443 | the root-free test says exactly that mean minus margin is positive, for the margin critical * stdev / sqrt(n) |
| `Confidence.VerdictInWords` | yolo_agent/agents/asha_scheduler.py:1434-1443 | the verdict over n values without a quotient: the mean m is positive and n (n - 1) m^2 exceeds t^2 times the squares about m, for the tabulated Student-t value of n |
| `Confidence.VerdictIgnoresSeedOrder` | yolo_agent/agents/asha_scheduler.py:1434-1443 | the test does not depend on the order of the values |
| `Confidence.VerdictIgnoresScale` | yolo_agent/agents/asha_scheduler.py:1434-1443 | the test is invariant under multiplication by a positive factor |
| `Confidence.VerdictKeptByGain` | yolo_agent/agents/asha_scheduler.py:1434-1443 | adding a nonnegative constant to all values never turns a positive verdict |
| `AshaScheduler.Scheduler.constructor` | yolo_agent/agents/asha_scheduler.py:221-226 | a new scheduler has an empty, consistent study |
| `AshaScheduler.Scheduler.Report` | yolo_agent/agents/asha_scheduler.py:649-692 | the field updates leave exactly the specified study; an unknown trial is refused without change |
| `AshaScheduler.Scheduler.RefreshPilot3Promotions` | yolo_agent/agents/asha_scheduler.py:915-991 | the elimination and promotion passes leave exactly the specified trials |
| `AshaScheduler.Scheduler.RefreshClass` | yolo_agent/agents/asha_scheduler.py:931-991 | one class of the refresh, pass by pass |
| `AshaScheduler.Scheduler.FinishAssignment` | yolo_agent/agents/asha_scheduler.py:900-913 | the reported record is closed with its first node kept, and no other record changes |
| `AshaScheduler.Scheduler.FinishPilot10` | yolo_agent/agents/asha_scheduler.py:993-1014 | the pilot_10 outcome with the first failing guard as reason |
| `AshaScheduler.Scheduler.FinishFullSeed1` | yolo_agent/agents/asha_scheduler.py:1016-1031 | the full seed 1 outcome with the first failing guard as reason |
| `AshaScheduler.Scheduler.FinishConfirmation` | yolo_agent/agents/asha_scheduler.py:1033-1066 | the outcome over all configured seeds |
| `AshaScheduler.Scheduler.NextAssignment` | yolo_agent/agents/asha_scheduler.py:722-751 | deferral, recovery, selection and issue leave exactly the specified study and return the specified assignment |
| `AshaScheduler.Scheduler.DeferNativeOutstandingAssignments` | yolo_agent/agents/asha_scheduler.py:863-879 | every outstanding native assignment is put back together with its trial, and nothing else changes |
| `AshaScheduler.Scheduler.RecoverableAssignment` | yolo_agent/agents/asha_scheduler.py:812-835 | the first outstanding assignment allowed by the flag and the class, or nothing |
| `AshaScheduler.Scheduler.HasExecutablePaperTrial` | yolo_agent/agents/asha_scheduler.py:837-852 | true exactly when some paper trial has a runnable status |
| `AshaScheduler.Scheduler.NextConfirmation` | yolo_agent/agents/asha_scheduler.py:1068-1075 | the first trial in order with an unobserved confirmation seed |
| `AshaScheduler.Scheduler.MissingSeed` | yolo_agent/agents/asha_scheduler.py:1072-1074 | the least confirmation seed without an observation |
| `AshaScheduler.Scheduler.Assign` | yolo_agent/agents/asha_scheduler.py:1077-1102 | the record of this key: reopened if deferred, unchanged otherwise, appended if there is none |
| `AshaScheduler.Scheduler.PersistedAssignment` | yolo_agent/agents/asha_scheduler.py:894-898 | the search by textual id finds the record of exactly that trial and key |
| `AshaScheduler.Scheduler.MarkRunning` | yolo_agent/agents/asha_scheduler.py:753-786 | the claim with its error cases; an error changes nothing |
| `AshaScheduler.Scheduler.CompleteEvidenceOnlyTrial` | yolo_agent/agents/asha_scheduler.py:788-810 | the consumed allocation and trial, and nothing else |
| `AshaScheduler.Scheduler.FailMatchedControl` | yolo_agent/agents/asha_scheduler.py:694-720 | exactly the trials bound to the failed protocol are blocked and listed |
| `AshaScheduler.Scheduler.ApplyCircuitBreaker` | yolo_agent/agents/asha_scheduler.py:281-302 | a waiting paper trial is failed exactly when its candidate has two adapter failures in other trials |
| `AshaScheduler.Scheduler.RegisterTrial` | yolo_agent/agents/asha_scheduler.py:304-559 | the registration with its error cases; an error changes nothing that is modelled |
| `AshaScheduler.Scheduler.PreRegisterTrial` | yolo_agent/agents/asha_scheduler.py:561-647 | the reservation with its error case; an error changes nothing |
| `ConfirmationSafety.CompletedRunsAreFinal` | yolo_agent/agents/confirmation_workflow.py:108-146 | over any sequence of executes and resumes with failures and deaths anywhere, a run persisted as completed keeps its record and is never executed again |
| `ConfirmationEvidence.PlayEvidence` | yolo_agent/agents/confirmation_workflow.py:126-146 | over any sequence of executes and resumes every run that becomes completed holds exactly the metrics that a call of the executor for its key returned, and every returned result is held |
| `ConfirmationEvidence.OneResultPerRun` | yolo_agent/agents/confirmation_workflow.py:145-170 | after a normal return there is exactly one returned result per run of the matrix, and each run holds its own |
| `ConfirmationEvidence.CompletedHasPrimary` | yolo_agent/agents/seed_confirmation.py:187-204 | from a matrix that starts open every completed run has the primary metric |
| `ConfirmationEvidence.AttemptPersists` | yolo_agent/agents/confirmation_workflow.py:126-146 | what one attempt persists for each way the executor or the process can end, error texts included |
| `ConfirmationEvidence.ExecutesInOrder` | yolo_agent/agents/confirmation_resume.py:56-86 | the runs that are not completed are executed in matrix order |
| `ConfirmationPlays.RequestAfter` | yolo_agent/agents/confirmation_workflow.py:108-170 | what each outcome leaves of the request: unchanged by a denial or a death, approved after an error, consumed by a normal return |
| `ConfirmationPlays.CallBudget` | yolo_agent/agents/confirmation_workflow.py:108-170 | over any sequence of executes and resumes the executor is called at most once per run that becomes completed and once more per invocation |
| `ConfirmationPlays.OnlyBoundInvocationsCount` | yolo_agent/agents/confirmation_workflow.py:108-116 | a sequence of invocations has exactly the effect, on disk and on the executor, of those among them that present an approval bound to the request |
| `ConfirmationSafety.ForeignApprovalsDoNothing` | yolo_agent/agents/confirmation_approval.py:104-123 | however often it is tried, missing approvals and approvals bound to another request, confirmation, winner or a smaller budget change and execute nothing |
| `ConfirmationSafety.FinishedMeansComplete` | yolo_agent/agents/confirmation_workflow.py:148-170 | a normal return leaves every run completed, executed plus skipped keys cover the matrix exactly once, and the request is consumed |
| `ConfirmationSafety.FinishesExactly` | yolo_agent/agents/confirmation_workflow.py:108-170 | an invocation returns normally if and only if there is a matrix and none of its open runs repeats an earlier key, the gate allows the request, every open run succeeds and the process survives |
| `ConfirmationMatrix.AcceptedExactly` | yolo_agent/agents/seed_confirmation.py:108-134 | the validator accepts exactly matched seed lists of at least three with, if there are runs at all, a run for every role and seed and none for another seed |
| `ConfirmationMatrix.CreatedIsAccepted` | yolo_agent/agents/seed_confirmation.py:108-163 | the validator accepts every list of at least three seeds with the matrix created for it, duplicates included |
| `ConfirmationMatrix.CreatedInWords` | yolo_agent/agents/seed_confirmation.py:136-163 | create lists the baseline runs in seed order and then the candidate runs, all pending, for the default seeds if none are given |
| `ConfirmationMatrix.RepeatsNeverFinish` | yolo_agent/agents/confirmation_workflow.py:108-170 | a matrix in which an open run repeats an earlier key is never finished by any later invocation |
| `ConfirmationMatrix.FinishableExactly` | yolo_agent/agents/seed_confirmation.py:136-163 | a created matrix can be finished by some sequence of invocations if and only if its seeds are pairwise different |
| `ConfirmationMatrix.AcceptedForNothing` | yolo_agent/agents/seed_confirmation.py:108-163 | the seeds 1, 1, 2 are accepted and their matrix can never be finished |
| `ConfirmationSafety.SpentForever` | yolo_agent/agents/confirmation_approval.py:98-99 | a consumed request never executes anything again, whatever is presented |
| `ConfirmationPlays.ReturnsAtMostOnce` | yolo_agent/agents/confirmation_workflow.py:148-170 | over any sequence of executes and resumes at most one invocation returns normally, the request is consumed exactly from then on, and until then a good approval stays good |
| `ConfirmationSafety.SpentMeansComplete` | yolo_agent/agents/confirmation_workflow.py:145-156 | over any sequence of executes and resumes the request is consumed only together with a complete matrix |
| `ConfirmationSafety.PlanCoversMatrix` | yolo_agent/agents/confirmation_resume.py:56-86 | every run is either to be executed or skipped, and those to be executed are pending, retried or interrupted |
| `ConfirmationSafety.GateExactly` | yolo_agent/agents/confirmation_approval.py:89-125 | the gate is closed exactly when one of the listed denials applies |
| `ConfirmationWorkflow.EvaluateFullRunApproval` | yolo_agent/agents/confirmation_approval.py:89-125 | the accumulated reasons are exactly the denials that apply, and the verdict is their absence |
| `ConfirmationWorkflow.PlanResume` | yolo_agent/agents/confirmation_resume.py:56-86 | the loop builds the specified plan, lists in matrix order |
| `ConfirmationWorkflow.Confirmation.MarkRunning` | yolo_agent/agents/seed_confirmation.py:174-185 | the legal transition and its refusal of completed runs |
| `ConfirmationWorkflow.Confirmation.MarkCompleted` | yolo_agent/agents/seed_confirmation.py:187-204 | only a running run with the primary metric completes |
| `ConfirmationWorkflow.Confirmation.MarkFailed` | yolo_agent/agents/seed_confirmation.py:206-218 | a completed run cannot be failed |
| `ConfirmationWorkflow.Confirmation.AttemptRun` | yolo_agent/agents/confirmation_workflow.py:126-146 | claim, persist, execute, record and persist, for every way the run or the process can end |
| `ConfirmationWorkflow.Confirmation.RunPlan` | yolo_agent/agents/confirmation_workflow.py:125-146 | the execution loop over the plan, up to the first failure or death |
| `ConfirmationWorkflow.Confirmation.ExecuteConfirmation` | yolo_agent/agents/confirmation_workflow.py:108-170 | one invocation: gate, plan, loop, completeness check, consumption |
| `ConfirmationWorkflow.Confirmation.ExecuteAll` | yolo_agent/agents/confirmation_workflow.py:108-170 | a sequence of invocations, each starting from what was persisted, has the specified effect on disk, request and executor |
| `BudgetOptimizer.FamilyDiverseOrder` | yolo_agent/agents/budget_optimizer.py:208-221 | the queues yield a fair order: score order inside every family, and in every prefix no family more than one ahead of one not exhausted |
| `BudgetOrder.FairIsPermutation` | yolo_agent/agents/budget_optimizer.py:208-221 | a fair order is a permutation of the ranked selections |
| `BudgetOrder.FairOrderUnique` | yolo_agent/agents/budget_optimizer.py:208-221 | the fairness conditions admit one order only |
| `BudgetOrder.FairStarts` | yolo_agent/agents/budget_optimizer.py:208-221 | a fair order starts with the best-ranked selection |
| `BudgetOrder.FamiliesByFirstPlace` | yolo_agent/agents/budget_optimizer.py:208-214 | families take turns in the order of their best-ranked selection |
| `BudgetOptimizer.Optimize` | yolo_agent/agents/budget_optimizer.py:124-183 | ranking, interleaving, window and the final check: selected then deferred is the allocation order with ranks 1 to n, and the check fails exactly for arms with a repeated node id and never for a dropped one |
| `BudgetOptimizer.CohortIsOrder` | yolo_agent/agents/budget_optimizer.py:92-98 | reading the cohort back by rank gives selected followed by deferred |
| `BudgetOptimizer.CohortCompleteExactly` | yolo_agent/agents/budget_optimizer.py:105-115 | the completeness check passes exactly when the guarded arms have distinct node ids |
| `Diversity.DistanceIsSymmetric` | yolo_agent/agents/exploration_diversity.py:211-226 | the semantic distance is symmetric, within [0, 1], and 0 from a recipe to itself |
| `DiversityDistance.NumbersApart` | yolo_agent/agents/exploration_diversity.py:346-356 | two numbers within [-1, 1] are their difference apart, beyond it their difference relative to the larger magnitude, and never more than 1 |
| `DiversityDistance.OthersApart` | yolo_agent/agents/exploration_diversity.py:346-356 | any other two values are 0 or 1 apart as they are equal or not, a flag equals its number, and nothing equals an absent value |
| `DiversityDistance.RecipesApart` | yolo_agent/agents/exploration_diversity.py:211-223 | different recipes of one family are apart by the mean distance of the keys they change |
| `DiversityDistance.OneKeyApart` | yolo_agent/agents/exploration_diversity.py:211-223 | recipes that differ in one of n changed keys are 1/n of that value distance apart |
| `DiversityDistance.TokensApart` | yolo_agent/agents/exploration_diversity.py:224-226 | recipes that change nothing are compared by the share of tokens they do not have in common |
| `DiversityDistance.ScreenInWords` | yolo_agent/agents/exploration_diversity.py:175-208 | the screen in terms of the history: known fingerprint, then spent family, then cooldown, then too close to any entry, and eligible otherwise |
| `DiversityDistance.SmallChangeIsTooClose` | yolo_agent/agents/exploration_diversity.py:175-208 | a recipe of an unspent family past its cooldown that changes one of n keys by too little is deferred as too close |
| `Diversity.EligibleExactly` | yolo_agent/agents/exploration_diversity.py:175-208 | a recipe is eligible if and only if its family is not exhausted and it stands apart from every history entry |
| `Diversity.GrowthExactly` | yolo_agent/agents/exploration_diversity.py:175-208 | for a packed history, eligibility is exactly that recording the recipe keeps it packed and the family is not exhausted |
| `Diversity.GrownIsPacked` | yolo_agent/agents/exploration_diversity.py:175-226 | a history grown by eligible decisions has distinct fingerprints, pairwise distance at least the minimum and same-family entries more than the cooldown apart |
| `AutonomousLoop.Loop.Run` | yolo_agent/agents/autonomous_loop.py:127-265 | the loop over tried, banned and tag state yields exactly the specified transcript, or nothing when retrieval fails; every transcript is sound (rounds 1 to k within the limit, only the last one a stop, executed actions new and filtered, an exhausted stop only when every other eligible action has been executed), the outcomes are its executions and the stop is named |
| `AutonomousLoop.Loop.PlayRound` | yolo_agent/agents/autonomous_loop.py:156-229 | one round: its record, the tags and tried actions it passes on, and the soundness of the longer transcript |
| `AutonomousLoop.ExecutionsCount` | yolo_agent/agents/autonomous_loop.py:168-172 | a sound transcript lists as many executions as it executes different actions, so no action is executed in two rounds |
| `AutonomousLoop.ExecutionsBounded` | yolo_agent/agents/autonomous_loop.py:95-110 | however many rounds are allowed, no more actions are executed than the filter has ready |
| `AutonomousLoop.Loop.ExecuteRound` | yolo_agent/agents/autonomous_loop.py:196-256 | the selected action, its verdict against the remaining supported actions, and the tags steering the next round |
| `AutonomousLoop.Evaluate` | yolo_agent/agents/autonomous_loop.py:95-110 | eligible and blocked split the actions in order, each blocked one with its first reason |
| `AutonomousLoop.SelectsFirstPaper` | yolo_agent/agents/autonomous_loop.py:277-281 | the first paper action is chosen if there is one, the first action otherwise |
| `AutonomousLoop.UniqueIsDistinct` | yolo_agent/agents/autonomous_loop.py:163-165 | deduplication keeps every retrieved id, keeps the first action that carries it and the order of first occurrence, and leaves distinct ids |
| `LoopVerdicts.VerdictsProduced` | yolo_agent/agents/loop_decision_engine.py:176-285 | no round of any run is decided as reject, collect_data or request_annotation |
| `LoopVerdicts.ChosenStaysSupportedExactly` | yolo_agent/agents/autonomous_loop.py:210-226 | the list of supported actions passed on contains the executed one exactly when a paper action further back was chosen |
| `LoopVerdicts.ExecutedAsIfRemaining` | yolo_agent/agents/autonomous_loop.py:210-226 | the decision is nevertheless the one that the actions really remaining would give |
| `LoopDecision.ParetoScore` | yolo_agent/agents/loop_decision_engine.py:98-146 | the pass over the axes computes the weighted sum and exactly the measured axes; the score is dominated exactly when a constraint is violated |
| `LoopDecision.PositiveScoreImproves` | yolo_agent/agents/loop_decision_engine.py:124-134 | with nonnegative weights a positive score needs an axis that improved |
| `LoopDecision.UnitFreeExactly` | yolo_agent/agents/loop_decision_engine.py:116-120 | an axis value survives a change of unit if and only if the baseline is nonzero or nothing moved |
| `LoopDecision.PromotionIsEarned` | yolo_agent/agents/loop_decision_engine.py:251-263 | a promotion violates no constraint, has the evidence asked for and improved at least one axis |
| `LoopVerdicts.DecidesInOrder` | yolo_agent/agents/loop_decision_engine.py:196-290 | which verdict, for each of them exactly when: violation, lacking evidence, met goal, nothing promising, no budget, and then by the score |
| `LoopVerdicts.RunsWithinLimits` | yolo_agent/agents/autonomous_loop.py:156-229 | in every round of every run: nothing is executed without budget, a met goal stops the run unless it rolls back or lacks evidence and is reported only where it is met, and a round executes nothing only for want of untried actions or budget |
| `LoopVerdicts.FirstRoundInWords` | yolo_agent/agents/autonomous_loop.py:156-200 | a round retrieves by exactly the caller, carried and forced tags; eligible are exactly the ready actions that are not smoke-only; what is executed is eligible and untried |
| `LoopVerdicts.TagsPassedOn` | yolo_agent/agents/autonomous_loop.py:230-256 | the tags passed on are the leftover ones and, when the loop moves ahead, the worst problem |
| `LoopVerdicts.MeasuredByName` | yolo_agent/agents/loop_decision_engine.py:89-98 | an axis is read from the first of its metric names that was recorded |
| `LoopVerdicts.AxisInWords` | yolo_agent/agents/loop_decision_engine.py:126-136 | an axis value is relative to the magnitude of the baseline, and absolute without one |

## Left out

- AshaDriver.Drive: leaves out the evidence-recovery queue, plan materialization and the queue files of the orchestrator, and with them the step that returns idle with an assignment offered because the trial's baseline control is missing; the training result is a function of trial and key.
- AshaConfluence.AnyOrderSameStudy: speaks of reports delivered back to back; with requests and claims in between, `AshaInterleaving.AnyInterleavingSameTrials` compares the trials at rest, because assignment records differ by who asked last.
- AshaScheduler.Scheduler.constructor: starts from an empty study; loading a stored one and the quarantine of unauthorized paper trials are not modelled.
- AshaScheduler.Scheduler.Report: does not keep `matched_control_result_ready`, which is computed from an object that is not part of this model.
- AshaScheduler.Scheduler.FinishConfirmation: keeps the verdict of the interval, not the stored `confirmation_ci_low` and `confirmation_ci_high`.
- AshaScheduler.Scheduler.RegisterTrial: the eligibility evaluation, the matched-control assessment, the fingerprint hash and the node's own flags are inputs; the run, combination, configuration and target-fact labels that registration only copies are not modelled. The code replaces the baseline control node before it raises on a plan conflict; that node is one of the unmodelled fields.
- AshaScheduler.Scheduler.PreRegisterTrial: copies fewer labels than the code, for the same reason.
- AshaScheduler.Scheduler.FailMatchedControl: does not keep the second copy of the blocker list or the result-ready flag.
- AshaScheduler.Scheduler.MarkRunning: names the assignment by trial and key, which the id determines (`AssignmentIds.AssignmentIdInjective`); a caller's object whose fields disagree with its own id is not modelled.
- AutonomousLoop.Loop.Run: round records do not keep the blocked actions, the decision reasons and the Pareto values; retrieval is a function of the round and its tags and may be absent, the runner is a function, and the caller's tag dictionary is a value, so the code's update of that dictionary in place is not visible to the caller; tags drawn from residual regressions are an input of the profile.
- BudgetOptimizer.Optimize: starts from arms that passed the guard, with their bandit scores as inputs, because the score needs a logarithm, a root and rounding.
- ConfirmationWorkflow.Confirmation.ExecuteConfirmation: ends with the consumed request; the promotion rule and the report that follow a complete matrix are not modelled, nor is `persist` being absent.
- LoopDecision.ParetoScore: the violations arrive as texts; how constraint, metric and numbers are formatted is not modelled.
- Trials and assignments are values in list fields of the scheduler object; aliasing of the Python objects handed out to callers is not modelled.
- Timestamps, `promoted_at`, report wording, schema versions and pydantic coercion.
- Paired-evidence validation inside `asha_scheduler.py`: computed from an object that is not part of this model.
- A study without one of the four rungs, for which the code raises KeyError: the configuration is a record with all four.
- Floating-point rounding, and the correctness of the Student-t table, whose values are kept as in the code.
- Reasons for elimination are a datatype: equality is kept, the text is not, except for reported failures and gate rejections.
- The textual key of a confirmation run; a run key is the pair of role and seed.
- Diversity: the exploration and exploitation buckets, the stop decision, recipe description and the history file.
- Derivation of Pareto weights from `TaskSpec`; weights are an input, nonnegative where a result needs it.
- The command line, report renderers, stores, event tailing and process control.
