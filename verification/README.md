# agent-bisect: counterfactual replay and the procedures built on it

agent-bisect finds the step of a failed agent run that caused the failure, by forking a recorded
run at a suspect step, changing one thing there and running the rest again. This project models
the machinery that makes such a fork mean something, and the decision procedures that spend and
judge forks, and proves what they promise:

- **Recording, replay, fork and standing fault** (`Simulation`, `Recording`, `Interventions`,
  `FaultInjector`, `Replay`, `ReplayReports`, `ReplayClosure`, `Counterfactual`, `ModelForks`,
  `TruthfulFix`, `ForkVerification`). tau2's orchestrator is an
  arbitrary function from history to next action; the model, the tools and the clock are oracles
  indexed by event, so a world may answer the same question differently each time. Recorder,
  injector and replayer are classes proved against functions on their state; the theorems are
  equalities and equivalences over whole runs.
- **The fork executor** (`Numerals`, `ForkExecutor`, `ForkProtocol`): run ids as strings, the
  append-only tape, retries, crashes, and any interleaving of draws.
- **The sequential estimator and its re-derivation** (`Reals`, `Intervals`, `Estimator`,
  `SamplingCosts`, `Boundary`, `Coupling`, `Verdicts`, `CostCurve`, `Rederivation`, `Truncation`, `Derivation`,
  `LookPoints`, `SharedControl`): exact real intervals, batched sampling from any stateful sampler,
  and the cost curve's recorded sampler.
- **The frozen split** (`Sums`, `Splits`, `SplitOrder`, `SplitPotential`, `SplitBalance`).
- **The completion dispatcher** (`Dispatcher`).
- **Judge text** (`Scanner`, `JsonText`, `JudgePrompts`).
- **Tree edits and planted faults** (`Json`, `Faults`, `FaultValues`).
- **The collection funnel** (`Strata`, `Funnel`, `Resumption`).

Floats are exact reals; a square root is any function that is one on the non-negative reals; a
confidence level enters as its critical value z; hashes stand for what they cover; a dictionary
that counts is a multiset; threads are interleaved atomic steps. Clocks, random choices, the date
library, `json.loads` and redaction are parameters.

Where the code does less than its documentation says, the model follows the code and a lemma
shows the difference:

- The recorder re-captures a snapshot only when the agent-side database hash changes, so a tool
  that writes only the user-side database leaves a stale snapshot on the tape
  (`Recording.SnapshotsExactIffNothingSilent`, `Recording.UserWriteIsRecordedStale`). A control fork
  reproduces its run in snapshot mode exactly when its prefix has no such row
  (`Counterfactual.ControlForkReproducesIffExact`; `Counterfactual.StaleForkDiffers` is one that does not).
- Planting a fault by forking at k is living under it from the start exactly when three things hold:
  the fault changes no answer before k, no event up to k changed the world under an unchanged hash,
  and the mutation is one the injector can show (`Counterfactual.PlantingIsLivingIff`). The
  collector's guard against repeated calls gives the first and everything its fault planner builds
  gives the third (`FaultInjector.WhatPlantBuildsIsInjected`), so for what it plants the second decides
  (`Counterfactual.CollectorPlantingIsLivingIff`), and it can fail
  (`Counterfactual.StalePlantingDiffers`).
- A mutation given directly to the fork or to the injector's specification, and not built by the
  planner, can be one the injector does not show: it leaves a failed call alone unless the fault
  itself fails (`FaultInjector.FailedCallIsLeftAlone`).
- With a shared control arm, a shorter plan can ask a recording for draws never bought
  (`SharedControl.SharedControlCanExhaust`); it can be answered exactly when each of its steps has a
  look among its recorded draws that settles it against the shorter control arm
  (`SharedControl.PlanServedIffAllSettle`).
- The judge's budget search is documented as finding the largest budget that fits; rendered length
  is not monotone in the budget, and the search can stop short (`JudgePrompts.SearchStopsShort`). It
  finds the largest exactly when every midpoint it meets at or below that budget fits
  (`JudgePrompts.ChosenIsLargestIffPathFits`).
- A stray quote or closing brace in the judge's prose hides the object after it
  (`JsonText.ObjectFoundIffQuiet`, `JsonText.StrayQuoteHides`, `JsonText.StrayBraceHides`).
- The collector's set of repeated steps is one field shared by all its threads; with two runs at
  once a repeated call can be planted and kept (`Funnel.OverlapKeepsARepeat`). No repeated call is
  ever kept exactly when every step one of the collection's runs repeats is one all its other runs repeat
  (`Funnel.NoRepeatKeptIffShared`).
- A candidate that died on infrastructure gets a journalled rejection, and so, unlike a tau2 task
  that did, is never tried again (`Funnel.VerdictsAreFinal`).
- Rolling back one or two cents by rounding gives the same amount back, so that stale record is
  not a fault (`Faults.RolledBackDiffersIff`).

`dafny verify dfyconfig.toml` checks the project.

## Model

| member | source | states |
|---|---|---|
| Recording.Tau2Recorder.CurrentState | agent_bisect/adapters/tau2.py:198-211 | the captured state is re-used exactly while the agent-side hash is unchanged |
| Recording.Tau2Recorder.OnLlmCall | agent_bisect/adapters/tau2.py:251-284 | appends one model row, at the next index, with the world unchanged around it |
| Recording.Tau2Recorder.OnToolCall | agent_bisect/adapters/tau2.py:286-307 | appends one tool row from the state captured at `begin_step` to the state after |
| Recording.RowsFollowEvents | agent_bisect/adapters/tau2.py:213-240 | over every run there is one row per event, consecutively numbered |
| Recording.HashesAlwaysRight | agent_bisect/adapters/tau2.py:198-240 | every row's state hash is that of the world after its event |
| Recording.SnapshotsExactIffNothingSilent | agent_bisect/adapters/tau2.py:198-211 | all snapshots of a run are the worlds they stand for if and only if no event changed the world without changing the agent-side hash |
| Recording.UserWriteIsRecordedStale | agent_bisect/adapters/tau2.py:198-211 | a run whose only tool call writes the user-side database, and the stale row it leaves |
| Interventions.RefusedIffMisapplied | agent_bisect/attribution/interventions.py:130-143 | a payload is refused exactly when the intervention is for another step or kind of payload, or its truth is unresolved |
| Interventions.ChosenApplies | agent_bisect/attribution/search.py:175-190 | the intervention chosen for a suspect applies on its own step; only an evaluator step has none |
| ModelForks.ChosenModelForkLivesIff | agent_bisect/attribution/search.py:175-190 | the fork with the intervention chosen for an agent's or a user's step k is, at every stage, the run of the world that answers as the recorded one before event k and as the live one from it on, if and only if it re-runs its prefix or no event of the prefix changed the world silently |
| ModelForks.ForcedForkLivesIff | agent_bisect/attribution/interventions.py:254-277 | with a forced action it is, under the same condition, the run of the world that says the forced message at k with the rest of the recorded response, and answers as the live one after |
| ModelForks.LiveCallsAreSaid | agent_bisect/adapters/tau2_replay.py:289-333 | in every fork, under every intervention, the live model calls counted are what was said after the fork step, and at it exactly when it was resampled |
| ModelForks.ChosenModelForkIsLive | agent_bisect/adapters/tau2_replay.py:289-333 | so the fork chosen for an agent's or a user's step pays for every model answer from that step on |
| TruthfulFix.TruthIsHadIff | agent_bisect/adapters/tau2_truth.py:69-98 | there is a truthful answer to be had exactly for a named tool call whose stored entry state is the one its hash names, where it has one |
| TruthfulFix.InnocentFixChangesNothing | agent_bisect/adapters/tau2_truth.py:67-106 | re-executing a recorded tool step on its entry state with the recording's own tools gives the recorded answer, so its truthful fix leaves the payload as it is |
| FaultInjector.Injector.Respond | agent_bisect/adapters/tau2_fault_injector.py:127-144 | the tool really executes, a matching call is shown the mutation, executions and hits are counted |
| FaultInjector.ReplacedIsInjectedIffPlantable | agent_bisect/adapters/tau2_fault_injector.py:95-144 | what a fork's replacement shows at the step is what the standing injector shows, if and only if the mutation's content and error flag are ones the injector can produce from the recorded result |
| FaultInjector.WhatPlantBuildsIsInjected | agent_bisect/bench/faults.py:164-372 | for every payload the fault planner builds, a changed body or a raised error, the replacement and the injector show the same |
| FaultInjector.FailedCallIsLeftAlone | agent_bisect/adapters/tau2_fault_injector.py:127-144 | a failed call whose content a payload without an error flag changes: the replacement shows the new content, the injector the old |
| FaultInjector.FaultTravels | agent_bisect/adapters/tau2_fault_fork.py:45-53 | along any chain of forks of an item the standing fault in its manifest is the one re-installed |
| Replay.Tau2Replayer.Complete | agent_bisect/adapters/tau2_replay.py:289-333 | one model call: served and checked from the tape, changed at the fork step or asked anew there, or live; `ModelForks` and `ReplayReports` say over whole runs what each comes to |
| Replay.Tau2Replayer.Respond | agent_bisect/adapters/tau2_replay.py:335-354 | one tool call: obtained in the replay's mode, changed at the fork step, or executed live |
| Replay.Tau2Replayer.ObtainResult | agent_bisect/adapters/tau2_replay.py:356-380 | verify re-executes and compares, snapshot restores the recorded state, rerun_live executes |
| Replay.RunOrchestrator | agent_bisect/adapters/tau2_replay.py:498-502 | driving the real objects event by event is the function the whole-run theorems are about |
| Replay.ReplayerInvariant | agent_bisect/adapters/tau2_replay.py:247-354 | in every run: while the tape governs the cursor is the number of events, nothing live is asked before the fork step's own event, and the intervention is applied at most once, on the fork step only |
| Replay.CursorParks | agent_bisect/adapters/tau2_replay.py:278-287 | after the fork step the cursor never moves again |
| Replay.FullReplayIsOffline | agent_bisect/adapters/tau2_replay.py:510-540 | with no fork step no run ever asks the live model |
| Replay.NeverAsksLive | agent_bisect/adapters/tau2_replay.py:278-333 | with no fork step no run ever stops for want of a live source |
| Replay.NoSourceNoLiveCalls | agent_bisect/adapters/tau2_replay.py:321-333 | without a live source no run, whatever its fork step, ever counts a live call |
| ReplayReports.StopSaysWhy | agent_bisect/core/replay.py:200-357 | a replay stops at its next event for a reason if and only if the tape and the request are in the state that reason names: another actor or call, the tape's end, another request, an answer that re-executes differently, a refused intervention, no live source |
| ReplayReports.RefusalSaysWhy | agent_bisect/attribution/interventions.py:130-143 | an intervention is refused for a reason if and only if it is for another step or kind of step, or its truth is wanting |
| ReplayReports.RowsSayTheirSource | agent_bisect/adapters/tau2_replay.py:289-354 | in every run the rows that say they came from the tape are those it governed, except a resampled one; each bears the actor its request or call is of, and a tool row the time it was made |
| ReplayReports.ReplaySays | agent_bisect/adapters/tau2_replay.py:510-560 | what a full replay reports of a run that stopped, stopped early or ended on another reward, and what it counts of one that did not |
| ReplayReports.TapeCallsAreCounted | agent_bisect/core/replay.py:200-251 | in every run the tape served exactly the model answers it governed, and those counted unguarded are the ones it was asked otherwise for |
| ReplayClosure.ReplayTape | agent_bisect/adapters/tau2_replay.py:510-560 | the replay of a tape on the real objects, with its verdict |
| ReplayClosure.FullReplaySettles | agent_bisect/adapters/tau2_replay.py:510-560 | a full replay has ended or diverged by one event past its tape, so bounding it loses no run |
| ReplayClosure.RecordingFits | agent_bisect/adapters/tau2.py:251-307 | every recording asks, row by row, what its orchestrator asks, for any model, tools and clock |
| ReplayClosure.ForkFits | agent_bisect/adapters/tau2_replay.py:606-682 | so does every fork's own tape, in every mode, under every intervention |
| ReplayClosure.SnapshotReplayAcceptsIffWhole | agent_bisect/core/runner.py:107-142 | snapshot replay succeeds if and only if the tape is the whole of a run and its reward is the recorded one |
| ReplayClosure.RecordingReplays | agent_bisect/adapters/tau2_replay.py:510-560 | a finished recording replays to its end from any environment: every row, the reward, each model call from the tape, none live |
| ReplayClosure.ForkReplays | agent_bisect/adapters/tau2_replay.py:510-560 | and so does every fork that reached its end |
| ReplayClosure.VerifyAcceptsIffReexecutes | agent_bisect/core/replay.py:338-357 | verify replay of a whole tape succeeds if and only if every tool row re-executes to its recorded answer and state hash |
| ReplayClosure.RecordingVerifies | agent_bisect/adapters/tau2_replay.py:356-366 | with the tools it was recorded under a recording verifies |
| ForkVerification.ForkVerifies | agent_bisect/core/replay.py:338-357 | a fork that ended and changed no tool result verifies with the tools it was made with, in either prefix mode |
| Counterfactual.ForkFollowsRun | agent_bisect/adapters/tau2_replay.py:289-354 | a fork with no intervention is, event by event, the run it was cut from |
| Counterfactual.ControlForkReproduces | agent_bisect/adapters/tau2_replay.py:606-682 | a control fork at any step reproduces the recorded tape, worlds and history, in rerun_live mode always and in snapshot mode where the prefix's snapshots are exact |
| Counterfactual.ControlForkReproducesIffExact | agent_bisect/adapters/tau2_replay.py:356-380 | a control fork of a finished recording follows it at every stage if and only if it re-runs its prefix or no event of the prefix changed the world silently |
| Counterfactual.StaleForkDiffers | agent_bisect/adapters/tau2_replay.py:356-380 | a one-call recording whose snapshot control fork ends in another world |
| Counterfactual.PrefixSharedIffNothingCorrupted | agent_bisect/bench/inject.py:646-655 | the run under a standing fault shares the clean run's first k events if and only if the fault changes none of their answers |
| Counterfactual.PlantedStep | agent_bisect/adapters/tau2_inject.py:286-317 | the planted step is the one the standing fault shows if and only if the mutation is plantable |
| Counterfactual.PlantingIsLivingIff | agent_bisect/adapters/tau2_inject.py:286-317 | planting by forking the clean run at k is, at every stage, the run from scratch under the injector, if and only if the fault changes no recorded answer before k, no event up to k changed the world silently, and the mutation is plantable |
| Counterfactual.CollectorPlantingIsLivingIff | agent_bisect/bench/inject.py:643-690 | for a call not repeated before k and a mutation made from its recorded result it is so if and only if no event up to k changed the world silently |
| Counterfactual.StalePlantingDiffers | agent_bisect/adapters/tau2_inject.py:286-317 | a one-call recording over which every planting leaves another world than the run under the fault |
| Counterfactual.PlantingIsLivingInTheFaultyWorld | agent_bisect/adapters/tau2_inject.py:298-317 | under those conditions both record the same tape, worlds and history, and agree with the clean run before k |
| Counterfactual.PlantedItemReproduces | agent_bisect/adapters/tau2_fork.py:240-261 | a control fork of a planted item at any step, with the fault re-installed, reproduces the item |
| Counterfactual.PlantedItemReproducesIffExact | agent_bisect/adapters/tau2_fork.py:240-261 | in snapshot mode it does so if and only if the item's prefix has no silent change |
| Counterfactual.OneShotFaultVanishes | docs/decisions/0016-persistent-planted-fault.md:14-30 | without the standing fault a control fork before k is the clean run: the planted failure is gone |
| TruthfulFix.TruthfulFixRecoversTheCleanRun | agent_bisect/attribution/interventions.py:171-213 | fixing the planted step with the answer its call re-executes to on the step's entry state, with the fault still standing, gives the clean run, for as long as that makes no call the fault would change again |
| TruthfulFix.TruthfulFixRecoversIffCleanAfter | agent_bisect/attribution/interventions.py:171-213 | it gives the clean run at every stage if and only if the clean run makes no call after the planted step whose answer the fault would change |
| TruthfulFix.FixIsChosen | agent_bisect/attribution/search.py:175-190 | that fix is the intervention chosen for the planted step |
| ForkExecutor.RerunIdIsDrawId | agent_bisect/attribution/search.py:193-215 | every re-run id ends in a digest of twelve hexadecimal digits |
| ForkExecutor.IdCarriesDigest | agent_bisect/attribution/search.py:193-215 | the one it was made with |
| ForkExecutor.IdNamesArmAndStep | agent_bisect/attribution/search.py:193-215 | equal ids of one run are of one arm, step and digest |
| ForkExecutor.CandidatesAreFamily | agent_bisect/adapters/tau2_fork.py:204-212 | the ids a resume looks at are exactly those an attempt of the draw could carry |
| ForkExecutor.FamiliesAreDisjoint | agent_bisect/attribution/search.py:193-215 | two different draws share no candidate id |
| ForkExecutor.DigestsKeepApart | agent_bisect/adapters/tau2_fork.py:204-212 | no string is a candidate id of two draws with different digests, whatever their runs, arms and steps |
| ForkExecutor.OutcomesAreNotShared | agent_bisect/adapters/tau2_fork.py:181-202 | an outcome recorded for one draw never changes what is found for another |
| ForkExecutor.FindFreeRunId | agent_bisect/adapters/tau2_fork.py:161-179 | the loop returns the free id the specification names |
| ForkExecutor.FreeIsFirstUnused | agent_bisect/adapters/tau2_fork.py:161-179 | it is the first unused variant, and there is none exactly when all are used |
| ForkExecutor.ScanCoversIffDeepEnough | agent_bisect/adapters/tau2_fork.py:71-80 | a scan sees everything the free-id search can hand out if and only if it looks back 49 variants |
| ForkProtocol.OneOutcomePerDraw | agent_bisect/adapters/tau2_fork.py:263-303 | over any interleaving of draws, retries and crashes no draw has two recorded outcomes |
| ForkProtocol.ResumePaysForNothingTwice | agent_bisect/adapters/tau2_fork.py:181-202 | once a draw has an outcome, every later history keeps it and the draw's bill, and asking again starts nothing |
| ForkProtocol.BillIsCallsMade | agent_bisect/adapters/tau2_fork.py:214-261 | over any interleaving a draw's bill is the calls its running forks made; no crash and no other draw adds to it or takes from it |
| ForkProtocol.CrashedDrawCanFinish | agent_bisect/adapters/tau2_fork.py:161-202 | after any history and a crash, a draw without an outcome can still get one while a variant of its id is free |
| ForkProtocol.Tau2ForkExecutor.Run | agent_bisect/adapters/tau2_fork.py:263-303 | the retry loop leaves the tape, the result, the retries and the spent calls its specification gives |
| ForkProtocol.CallEndsAtFirstSettled | agent_bisect/adapters/tau2_fork.py:263-303 | a call ends with an outcome already recorded, for nothing; or at the first of its attempts that does not fail on infrastructure, for that one's calls; or when three have failed |
| ForkProtocol.RunIsABehaviour | agent_bisect/adapters/tau2_fork.py:263-303 | each call of it is some run of the protocol's steps, by that draw alone |
| ForkProtocol.AskingAgainIsFree | agent_bisect/adapters/tau2_fork.py:181-202 | after a call that returned, a second one returns the same outcome for no calls and leaves the tape alone |
| Intervals.WilsonInverts | agent_bisect/attribution/estimate.py:119-138 | Wilson's interval is exactly the set of p with n(p̂-p)² <= z²p(1-p) |
| Intervals.WilsonShape | agent_bisect/attribution/estimate.py:119-138 | it contains the estimate, stays in [0, 1] and touches an end exactly at 0/n and n/n |
| Intervals.WilsonNested | agent_bisect/attribution/estimate.py:119-138 | it widens with z |
| Intervals.NewcombeShape | agent_bisect/attribution/estimate.py:141-155 | Newcombe's interval contains the difference and stays in [-1, 1] even unclamped |
| Intervals.NewcombeQuadrature | agent_bisect/attribution/estimate.py:141-155 | each bound is as far from the difference as the two outward Wilson distances in quadrature |
| Intervals.NewcombeSwaps | agent_bisect/attribution/estimate.py:141-155 | swapping the arms negates it |
| Intervals.NewcombeNested | agent_bisect/attribution/estimate.py:141-155 | it widens with z on both sides |
| Estimator.SampleStep | agent_bisect/attribution/estimate.py:343-389 | the sampling loop of a step gives the effect, the sampler's state and the draws of the specification that `Verdicts.StepReports` is about |
| Estimator.SampleRun | agent_bisect/attribution/estimate.py:412-468 | so does a whole run, shared control first, and the specification is what `Verdicts.RunReports` is about |
| Verdicts.StepReports | agent_bisect/attribution/estimate.py:343-389 | a step's effect is the difference of its arms' pass rates, with their interval at the reported level; it is blameworthy if and only if the interval's low at its look's level exceeds delta, cleared if and only if it does not and the reported high is at most delta, and otherwise its arms have reached the plan's end |
| Verdicts.RunReports | agent_bisect/attribution/estimate.py:392-468 | a run reports one such effect per tested step, in order, against a shared arm drawn first, at the earliest step, for the plan's whole length; and it blames the earliest step whose low is above delta, or none |
| Verdicts.BlamedEffectExceedsDelta | agent_bisect/attribution/estimate.py:392-402 | a blamed step's treated arm passed more often than its control, or than never, by more than delta |
| Verdicts.LevelsAreOBrienFleming | agent_bisect/attribution/estimate.py:71-80 | each look's critical value is 2.024·√(4 / look) to a thousandth |
| Estimator.PassesAreTrues | agent_bisect/attribution/estimate.py:343-389 | an arm's successes are its passing outcomes |
| Estimator.LookOnPlan | agent_bisect/attribution/estimate.py:240-244 | each look stays on the plan: the look number is the draws over the batch, rounded up, and within the planned looks |
| Estimator.SortedStepsIncrease | agent_bisect/attribution/estimate.py:427-429 | the tested steps are estimated once each, in increasing order |
| Estimator.BlameIsEarliest | agent_bisect/attribution/estimate.py:392-402 | a step is blamed if and only if it is the least with a blameworthy verdict, in whatever order the effects come |
| SamplingCosts.CostsAreExact | agent_bisect/attribution/estimate.py:405-468 | for any sampler the recorded calls and re-runs are those asked for, each step's batches are its draws over the batch rounded up, and the total is within the plan's bound |
| Boundary.StopsAtFirstDecision | agent_bisect/attribution/estimate.py:357-389 | sampling ends with some arms if and only if they are those of the first decisive or last planned look |
| Boundary.VerdictFollowsEffect | agent_bisect/attribution/estimate.py:315-325 | no blame unless the measured effect exceeds delta, no clearing unless it does not |
| Boundary.BoundaryOnlyDelaysBlame | agent_bisect/attribution/estimate.py:304-325 | on the same draws the nominal run of a step stops at the same look with the same arms, or earlier and blaming |
| Boundary.StepsCouple | agent_bisect/attribution/estimate.py:304-389 | the nominal effect takes no more looks or draws; blame under the boundary is nominal blame |
| Coupling.AlikeRuns | agent_bisect/attribution/estimate.py:412-468 | a sampler that answers as another did, along every state leading to the wanted end, gives the same estimate |
| CostCurve.ForkRerunSampler.Sample | agent_bisect/attribution/search.py:292-315 | records grow by the whole draw in draw order, or not at all |
| CostCurve.RecordedQueues.Sample | agent_bisect/bench/costcurve.py:107-132 | the queues serve the next recorded outcomes of a step and arm, counting re-runs and calls |
| CostCurve.LastControlHeld | agent_bisect/bench/costcurve.py:107-115 | a control step is remembered exactly when some control draw was recorded |
| Rederivation.RecordsAreDraws | agent_bisect/attribution/search.py:292-315 | a run's records are its draws, expanded in order |
| Rederivation.EstimateRoundTrips | agent_bisect/bench/costcurve.py:76-142 | feeding a run's records back gives the identical estimate, spending exactly the recorded re-runs and calls |
| Truncation.StepTruncates | agent_bisect/bench/costcurve.py:135-142 | every shorter plan of a step can be answered; it stops where the nominal plan does or at its own end, and is that plan's effect when it reaches it |
| Truncation.RecordedSteps | agent_bisect/bench/costcurve.py:107-132 | a profile is answered from a recording if and only if each step is from its own queues |
| Derivation.ShorterPlansAreServed | agent_bisect/bench/costcurve.py:153-172 | from any recorded run, every shorter nominal plan over any of its steps is answered without exhausting the recording, with a control arm per step at every length, with a shared one at full length; shorter shared plans are answered exactly when `SharedControl.PlanServedIffAllSettle` says |
| Derivation.NominalBlameIsNoLater | agent_bisect/bench/costcurve.py:135-172 | re-derived at the nominal level, a run blames no later than the boundary did |
| LookPoints.StepServedIffSettles | agent_bisect/attribution/estimate.py:343-389 | a step can be answered from recorded draws if and only if some look within them, a multiple of the batch or the plan's end, is finished; its effect is the first such look's |
| SharedControl.PlanServedIffAllSettle | agent_bisect/bench/costcurve.py:117-172 | from any recorded run, in either control mode, the plan of length n is answered if and only if every one of its steps has such a look against the first n control draws |
| SharedControl.LateControlIsRecorded | agent_bisect/attribution/estimate.py:412-468 | the counterexample's list of records is what a run under the default plan with a shared control records |
| SharedControl.SharedControlCanExhaust | agent_bisect/bench/costcurve.py:117-132 | a run under the default plan whose own records the plan of half its length cannot be answered from |
| SharedControl.ControlReusedIff | agent_bisect/bench/costcurve.py:107-115 | an answered plan reports a borrowed control arm if and only if the arm is shared and the plan's earliest step is not the one the recorded arm was forked at |
| Splits.AssignSplits | agent_bisect/bench/manifest.py:141-174 | the assignment is that of a run of the greedy rule over all groups in the fixed order |
| Splits.SplitDependsOnItemsOnly | agent_bisect/bench/manifest.py:141-174 | two assignments of the same items, in whatever order, are the same |
| Splits.OrderingUnique | agent_bisect/bench/manifest.py:164 | the order of the groups is determined: whichever run it is read off |
| SplitOrder.AssignedInOrder | agent_bisect/bench/manifest.py:159-174 | what `assign_splits` returns was placed task by task: frozen ones first, then by the number of their items from the largest down, then by name |
| SplitOrder.LargestGoToTestThenDev | agent_bisect/bench/manifest.py:159-206 | so with nothing frozen and two tasks or more, some task on test is as large as any, and some task on dev as large as any but that one |
| SplitOrder.EachPlacedByLean | agent_bisect/bench/manifest.py:177-206 | every unfrozen task goes to dev if and only if dev has room for it and its strata lean to test so far, or lean to neither and dev stays within a third |
| SplitOrder.GroupsAreTasks | agent_bisect/bench/manifest.py:100-103 | two items are of one group if and only if they are of one task of one domain, for domains without a colon |
| SplitOrder.StrataAreKinds | agent_bisect/bench/manifest.py:105-107 | two items are of one stratum if and only if domain, fault type and bucket agree, for names without a bar |
| SplitPotential.NeedGap | agent_bisect/bench/manifest.py:209-231 | the two sides' needs differ by one and a half times the lean of the group's strata |
| SplitPotential.PotentialMoves | agent_bisect/bench/manifest.py:159-174 | what placing a group does to the sum of squared imbalances, exactly |
| SplitPotential.GrowthBounded | agent_bisect/bench/manifest.py:177-206 | a group placed by need adds at most four times its own weight |
| SplitPotential.ForcedGrowth | agent_bisect/bench/manifest.py:186-191 | a group the ratio forced to test adds at most four times its weight and twice its size |
| SplitBalance.SplitIsComplete | agent_bisect/bench/manifest.py:141-174 | every task group is placed and the counts decided on are those of the items |
| SplitBalance.InheritedSidesKept | agent_bisect/bench/manifest.py:160-170 | an inherited group keeps its side |
| SplitBalance.DevShareBounded | agent_bisect/bench/manifest.py:186-191 | with nothing inherited dev has at most 1/3 + 1/10 of the items, or is one group |
| SplitBalance.BothSidesFilled | agent_bisect/bench/manifest.py:177-206 | two or more fresh groups never all land on one side |
| SplitBalance.GreedySplitIsBalanced | agent_bisect/bench/manifest.py:159-206 | in every run (test - 2·dev)² over the items is at most four times the groups' weights, plus two for each item of a group the ratio forced to test and sixteen (dev) or four (test) for each item frozen on a side |
| SplitBalance.NeedAloneBalances | agent_bisect/bench/manifest.py:192-206 | when every group was placed by need it is at most four times the weights |
| SplitBalance.EachStratumIsBalanced | agent_bisect/bench/manifest.py:159-231 | within each stratum (test - 2·dev)² over its items is bounded by the same allowance, in every run |
| SplitBalance.AssignedSplit | agent_bisect/bench/manifest.py:141-174 | what `assign_splits` returns, on any items and frozen sides, covers exactly the items' groups, keeps the frozen ones, and is balanced so, overall and in each stratum |
| SplitBalance.FreshSplit | agent_bisect/bench/manifest.py:141-206 | and with no group frozen keeps the ratio and, from two groups on, uses both sides |
| Dispatcher.CompletionDispatcher.Enter | agent_bisect/adapters/tau2_replay.py:428-438 | the first holder installs the dispatcher over the seam, others only count |
| Dispatcher.CompletionDispatcher.Leave | agent_bisect/adapters/tau2_replay.py:439-444 | the last holder puts the seam back |
| Dispatcher.SeamIsHeldOrRestored | agent_bisect/adapters/tau2_replay.py:428-444 | over every interleaving the seam is the dispatcher over the original while anyone holds it, and the original otherwise |
| Dispatcher.CallsReachTheirOwnReplay | agent_bisect/adapters/tau2_replay.py:419-426 | a thread's call reaches the replay of its own innermost turn, and the original when it is in none's |
| Dispatcher.DrivingIsBracketed | agent_bisect/adapters/tau2_replay.py:455-481 | whatever other threads do between entering, serving and leaving, driving a replay ends in the state they would have reached without it |
| Dispatcher.DrivenReplayIsReached | agent_bisect/adapters/tau2_replay.py:419-426 | and inside its turn the thread's calls reach that replay |
| Dispatcher.LeavingIsEnabled | agent_bisect/adapters/tau2_replay.py:439-444 | in every reachable state a thread inside a replay can leave it |
| Dispatcher.LiveCallEndsIffRouterHandedIn | agent_bisect/adapters/tau2_fork.py:134-159 | inside a replay a live call reaches the router if and only if the router was handed in rather than read off the seam |
| Scanner.FindObjects | agent_bisect/attribution/judge_parse.py:62-89 | the scan returns the spans its specification finds |
| Scanner.SpansAreSelfContained | agent_bisect/attribution/judge_parse.py:62-89 | in any text the spans are in order, disjoint, and each re-scans to exactly itself |
| JsonText.ObjectFoundIffQuiet | agent_bisect/attribution/judge_parse.py:62-89 | a printed object after a prefix is found if and only if the prefix leaves the scan outside every brace and string |
| JsonText.ScannerInvertsPrinter | agent_bisect/attribution/judge_parse.py:62-89 | objects printed per sections 4 and 7 of RFC 8259, between plain prose, are found exactly and in order |
| JsonText.StrayQuoteHides | agent_bisect/attribution/judge_parse.py:71-80 | an unclosed quote before an object hides it |
| JsonText.StrayBraceHides | agent_bisect/attribution/judge_parse.py:81-89 | so does a stray closing brace |
| JsonText.ExtractJsonObject | agent_bisect/attribution/judge_parse.py:92-115 | tries the candidates from the last backwards and reports why there is none |
| JsonText.LastObjectIsLast | agent_bisect/attribution/judge_parse.py:104-115 | the result is the last candidate that loads to an object; none exactly when none does |
| JsonText.LastPrintedIsExtracted | agent_bisect/attribution/judge_parse.py:92-115 | extraction yields the last printed object |
| Json.Walker.WalkScalars | agent_bisect/bench/salience.py:131-138 | the walk appends the scalar leaves, in order |
| Json.Walker.WalkDroppable | agent_bisect/bench/salience.py:150-159 | the walk appends every entry, parents before what is below them |
| Json.ScalarsAreLeaves | agent_bisect/bench/salience.py:122-138 | a scalar is a candidate if and only if its path leads to it |
| Json.DroppablesAreEntries | agent_bisect/bench/salience.py:141-159 | an entry is droppable if and only if its path leads to it from below the root |
| Json.ScalarsListedOnce | agent_bisect/bench/salience.py:122-138 | no scalar is listed twice |
| Json.ScalarsInOrder | agent_bisect/bench/salience.py:122-138 | scalars are listed in document order |
| Json.DroppablesListedOnce | agent_bisect/bench/salience.py:141-159 | no entry is listed twice |
| Json.DroppablesInOrder | agent_bisect/bench/salience.py:141-159 | entries are listed in document order, each before what is below it |
| Json.PutThenGet | agent_bisect/bench/salience.py:193-205 | a replaced path reads back what was put |
| Json.GetThenPut | agent_bisect/bench/salience.py:193-205 | putting back what was there changes nothing |
| Json.PutTwice | agent_bisect/bench/salience.py:193-205 | the last of two replacements at one path wins |
| Json.PutElsewhere | agent_bisect/bench/salience.py:193-205 | nothing off the path changes |
| Json.DropUndone | agent_bisect/bench/salience.py:208-219 | putting the dropped entry back where it was restores the body |
| Json.DropKeepsSiblings | agent_bisect/bench/salience.py:208-219 | its siblings stay under their keys, or move one place up in a list |
| Json.DropElsewhere | agent_bisect/bench/salience.py:208-219 | whatever lies off the dropped entry's parent reads as before |
| Json.NodesAreEntries | agent_bisect/bench/salience.py:141-159 | a body has one node more than it has entries to drop |
| Json.DropLosesOneSubtree | agent_bisect/bench/salience.py:208-219 | afterwards there are as many nodes fewer as the dropped subtree has |
| Faults.PlainLibraryIsLawful | agent_bisect/bench/faults.py:248-256 | a date library with every law the fault results ask for |
| Faults.WrongValueIsUndone | agent_bisect/bench/faults.py:194-245 | a wrong value is one edit, always differs from the truth, and the oracle fix undoes it |
| Faults.WrongValuePossible | agent_bisect/bench/faults.py:194-256 | there is none exactly for want of a scalar or on a text with nothing alphanumeric, and it raises exactly when a date leaves the calendar |
| Faults.RolledBackDiffersIff | agent_bisect/bench/faults.py:332-349 | rolling a value back changes it if and only if it is not a float of one or two cents |
| Faults.StaleRecordIsUndone | agent_bisect/bench/faults.py:284-311 | a stale record is one edit the oracle fix undoes, and equals the truth exactly in that case |
| Faults.MissingFieldLosesOneEntry | agent_bisect/bench/faults.py:262-278 | a missing field loses one entry and all below it, and is possible exactly when there is an entry |
| FaultValues.WrongValuesPlanted | agent_bisect/bench/faults.py:194-256 | the wrong values some draw plants are exactly these: at any scalar, the other truth value, a whole number off by one to three, an amount times one of the factors, a date moved by one of the shifts, or a text with one letter or digit changed for another of its class |
| FaultValues.StaleRecordsPlanted | agent_bisect/bench/faults.py:284-349 | the stale records some draw plants are exactly these: the earlier result if it differs, otherwise a scalar as it was before |
| FaultValues.MissingFieldsPlanted | agent_bisect/bench/faults.py:262-278 | the fields some draw drops are exactly the entries below the root |
| Strata.Bucketed | agent_bisect/bench/strata.py:49-60 | the buckets are contiguous thirds of the run |
| Strata.ThirdsAreFair | agent_bisect/bench/strata.py:37-60 | together they are the whole run, and differ in size by at most one |
| Strata.AttemptOrder | agent_bisect/bench/strata.py:63-86 | the order is the rounds over the buckets |
| Strata.RoundsHold | agent_bisect/bench/strata.py:63-86 | an attempt is in the order if and only if it is among its bucket's first candidates |
| Strata.RoundsNameEachStepOnce | agent_bisect/bench/strata.py:63-86 | no step is tried twice |
| Strata.RoundsTakeTurns | agent_bisect/bench/strata.py:63-86 | every bucket's first candidate is tried before any bucket's second, and so on, buckets in their order |
| Strata.FlowingFirstIsAStableSort | agent_bisect/bench/inject.py:926-943 | putting flowing candidates first is a stable sort: same attempts, same order within a group |
| Strata.FlowingThenLate | agent_bisect/bench/inject.py:926-943 | flowing candidates come first, within them later buckets first, and otherwise the order is kept |
| Strata.FlowingFirstNamesEachStepOnce | agent_bisect/bench/inject.py:926-943 | so it still tries no step twice |
| Funnel.CollectorOrdersAreValid | agent_bisect/bench/inject.py:608-627 | the collector's own orders, rounds over the buckets with flowing candidates first, are orders the results below hold of |
| Funnel.EachCandidateOnce | agent_bisect/bench/inject.py:629-641 | over any crashes and resumes each candidate reaches a journalled verdict at most once |
| Funnel.VerdictsAreFinal | agent_bisect/bench/inject.py:643-669 | a journalled verdict, an infrastructure rejection included, never changes |
| Funnel.FilledMeasuresNothing | agent_bisect/bench/inject.py:608-627 | once the target is reached no run journals anything more until the collection is started again |
| Resumption.CrashesChangeNothing | agent_bisect/bench/inject.py:608-669 | runs worked one at a time and measurements that come out alike: whatever crashed and was resumed, a run's journal is the beginning of what an uninterrupted walk over its candidates would journal, verdict for verdict, and all of it once its walk is through |
| Resumption.CanBeFinished | agent_bisect/bench/inject.py:608-641 | and from wherever such a history stands the collection can be resumed to its end, where every run's journal holds exactly the candidates an uninterrupted walk takes up |
| Funnel.KeptPerRun | agent_bisect/bench/inject.py:608-627 | at most one candidate is kept per base run and position bucket, and at most `max_kept_per_run` per base run |
| Funnel.OneAtATimeKeepsNoRepeats | agent_bisect/bench/inject.py:608-655 | one run at a time, no repeated call is ever kept |
| Funnel.NoRepeatKeptIffShared | agent_bisect/bench/inject.py:608-655 | where anything may be kept, no history ever keeps a repeated call if and only if every step tried and repeated in one of the collection's base runs is repeated in all the others |
| Funnel.OverlapKeepsARepeat | agent_bisect/bench/inject.py:335 | two runs at once, and a repeated call that is kept |
| Funnel.RunPasses | agent_bisect/bench/inject.py:420-453 | infrastructure failures are worked again for up to three passes, then parked |
| Funnel.TasksEndFinishedOrParked | agent_bisect/bench/inject.py:420-453 | each tau2 task is worked once more after a first and after a second failed pass, no more than that, and is parked if and only if all three failed |
| JudgePrompts.TruncateKeepsBothEnds | agent_bisect/attribution/judge_prompts.py:119-128 | a beginning and an end are kept, and with the stated elided count they make up the original length |
| JudgePrompts.OneShortIsLonger | agent_bisect/attribution/judge_prompts.py:119-128 | a budget one short of a text renders longer than the text |
| JudgePrompts.RenderTrajectory | agent_bisect/attribution/judge_prompts.py:157-180 | the whole rendering if it fits, otherwise the one at the searched budget; either way every step is in it |
| JudgePrompts.OneBudgetForAll | agent_bisect/attribution/judge_prompts.py:157-180 | every step is rendered at one budget that fits or is the floor, and one more does not fit |
| JudgePrompts.RenderedShowsEveryStep | agent_bisect/attribution/judge_prompts.py:131-180 | the rendering is one piece for every step, in tape order, joined by line breaks: the step's header, a line of its truncated arguments exactly when it has any, and its truncated content, all at one budget |
| JudgePrompts.JoinedAt | agent_bisect/attribution/judge_prompts.py:153-154 | each piece stands in the rendering where the ones before it end |
| JudgePrompts.BelowTheFloor | agent_bisect/attribution/judge_prompts.py:110-116 | a policy below the floor is rendered at the floor |
| JudgePrompts.LargestWhenDownwards | agent_bisect/attribution/judge_prompts.py:157-164 | where fitting budgets have no gap the chosen one is the largest |
| JudgePrompts.SearchFindsIffPathFits | agent_bisect/attribution/judge_prompts.py:171-180 | the search finds the largest fitting budget if and only if every midpoint at or below it on the way there fits |
| JudgePrompts.ChosenIsLargestIffPathFits | agent_bisect/attribution/judge_prompts.py:157-180 | so for the rendered trajectory |
| JudgePrompts.SearchStopsShort | agent_bisect/attribution/judge_prompts.py:157-180 | two steps for which the search settles on 83 although 98 fits |

## Left out

- tau2, litellm, SQLite, blob files, redaction and canonical JSON: state, tape, journal and payloads are values; their sources are not part of this model.
- Request-shaping interventions (`EditPrompt`, `SwapModel`), which record requests the orchestrator would not ask again.
- Hash functions: a state hash is the agent-side database itself, a request hash is the request it covers, and the twelve-digit digest of a re-run id is assumed different for different draws.
- Rows without a stored response or request, token counts, latencies and per-actor call tallies of the recorder.
- ReplayClosure.ReplayTape: counts its steps with a recorder rather than the counting sink, which keeps only the number.
- The fake `rerun_live` world of the flaky benchmark and its canonicalisation of random ids.
- Dispatcher.LiveCallEndsIffRouterHandedIn: compares the two ways the fork executor could bind its live call, the router and the seam, and no others.
- Funnel.KeptPerRun: takes the order of attempts as fixed by the configuration; shuffling is any choice of shortlists.
- The collector's base recording and stability stages, its concurrency gate, the kept total across shards and the fault-type balancer.
- `tool_error` faults, candidate scores and tie-breaking: any candidate may be the one drawn.
- Python's equality between `True`, `1` and `1.0`; a calendar is any range of days, with a date outside it raised as an error.
- TruthfulFix.TruthfulFixRecoversTheCleanRun: re-execution needs tools that answer one call alike at any time, and compares answers as values; the key order of the re-executed payload and the requestor of its call are not modelled.
- Float rounding in intervals and split needs, and the quantile function that turns a confidence level into z.
- Bootstrap, reports, the budget ledger, judge ranking validation, the CLI, the server and the web interface.
