# Verification of sil_agent

A Dafny model of the run engine of sil_agent: the durable episode loop and its recovery, the guard in
front of the simulator, the recorded model calls, grid search, the run lock, the transformed benchmark
instances, the scoring of stored runs, and the retrying model router.

`dafny verify dfyconfig.toml` checks everything.

## How the model is laid out

| file | what it models |
|---|---|
| `Domain.dfy` | parameter spaces, candidates, results, the ordering of results, budgets, run states |
| `History.dfy` | incumbent, budget use and position recomputed from the recorded episodes |
| `Guard.dfy` | cleaning a proposal, the duplicate test, perturbation |
| `Persistence.dfy` | the runs, episodes and calls tables and the effect of each repository method |
| `Loop.dfy` | one turn, the uninterrupted run, and what a process has done of it |
| `Runner.dfy` | the loop itself, writing to the repository and liable to die before any write |
| `Durability.dfy` | facts about every run; resuming up to cost; exactly when resuming leaves no trace at all |
| `Workers.dfy` | any number of workers on one run, interleaved at every database access |
| `Harness.dfy`, `Experiment.dfy` | create, continue or skip a cell; kill it anywhere and invoke it again; run every cell |
| `Metrics.dfy`, `Stagnation.dfy` | derived termination reason, best-so-far and regret curves, the no-improvement detector |
| `Replay.dfy` | write-once recorded calls under a model that never answers twice alike: strategies that ask a model, the single-shot one, and offline replay |
| `Grid.dfy`, `Coverage.dfy` | sizing, axes and enumeration of the grid; the grid run covers the grid |
| `Lease.dfy` | the run lock as a timed protocol |
| `Instances.dfy` | shifted and rotated benchmark instances |
| `Retry.dfy`, `Router.dfy` | backoff, fallback order, repair rounds and their accounting |
| `Witnesses.dfy` | an input for each promise that is kept only under a condition |

The specification of a loop of the source is a function named by a noun (`BestOf`, `Validated`,
`Complete`); the method named by the source's verb (`RecomputeBest`, `Validate`, `RunLoop`) keeps the
source's loop and is proved to compute that function. The theorems are about the functions, and so hold
of the methods. Automatic induction is switched off on every lemma: each proof is the one written.

`Loop.Complete` is the run nobody interrupts: a recursive function whose measure is the evaluations plus
the rejections still allowed. Everything about crashes is said relative to it. A process that may die is
a process that survives a given number of database writes, the recording of a model call included: every
point between two writes is a crash point, so the point just before an episode is written, the one the
source's `crash_at` picks, is one of them. In `Workers.dfy` crashes, loads, the look for a recorded call,
its recording, inserts and saves are separate steps of a machine, and a further step overwrites the
snapshot row's derived columns at will.

What an episode is charged is not part of what the source makes durable: a fresh call is charged in full,
a recorded one is replayed for its tokens alone (`sil_agent/services/replay.py:123-140`), and a failed one
leaves the last charge standing (`sil_agent/agent/loop.py:351`). So runs are compared up to cost, which
`last_cost` is documented never to matter for (`sil_agent/strategies/base.py:79-83`), and the exact
comparison, costs included, is made under the exact condition. `Durability.CostsDecideNothing` is what the
comparison up to cost assumes of a run: strategy and detectors do not read costs, and no answer is charged
in euros. Every strategy and detector of the repository is such, and so is every charge
(`sil_agent/services/router.py:286`, `sil_agent/services/replay.py:138`).

Modelling choices:

* Floats are `real`, without rounding; a NaN or an infinity in a proposal is the value `NotFinite`.
* Reading a number from text is an arbitrary function of the text.
* A strategy's proposal, and the prompt of the model call it makes if it makes one, are arbitrary functions
  of the goal, the evaluation budget, the history, the seed and the index; the model's answer and its full
  charge, of the prompt; the simulator's answer, its wall time included, of the parameters and the index;
  the perturbation draws, of the seed, the index, the space and the candidate. A simulator or guard that
  raises gives an error outcome. In `Replay.dfy` the model may answer differently every time.
* A run id stands for the hash of the cell's configuration; distinct cells are assumed to have distinct ids.
* Recorded plans survive storing and reading back unchanged, and a prompt is its own key.

## What turned out not to hold as described

Each has an exact condition, or a one-way condition where the line says so, and an input in
`Witnesses.dfy` or `Lease.dfy` that fails it.

* "Resume continues exactly where it left off" (`sil_agent/agent/loop.py:7-10`): true up to cost at every
  crash point (`Durability.ResumeIsInvisibleUpToCost`). Costs included, resuming after n episodes is
  invisible exactly when the next proposal is not a failure following an episode that cost something and,
  if its call had been recorded, replaying that call reports what the fresh call reported
  (`Durability.ResumeIsInvisibleExactlyWhen`). A fresh call that was paid for never does
  (`Durability.PaidCallsShow`), so a summary then counts one model call fewer. Fails in
  `Witnesses.ResumingShows`.
* "A replayed run reproduces exactly what happened" (`sil_agent/services/replay.py:14-17`): true up to cost
  exactly when no ask of the run had failed (`Replay.OfflineReplayReproducesExactlyWhen`), since a failure is
  not recorded.
* `model_calls` "counts only calls that actually reached a provider" (`sil_agent/eval/metrics.py:74-76`): on an
  uninterrupted run it does, and so does the count of compliant ones, exactly when no ask fails after an episode
  charged with such a call, because a failed ask is charged with the cost of the episode before
  (`Metrics.SummaryCountsCallsExactlyWhen`, `Witnesses.OutageCountsAsCall`).
* Perturbation is to nudge a repeated candidate somewhere new, and its comment says that leaving the duplicate
  in place must not happen (`sil_agent/agent/guards.py:225-262`): it stays in place exactly when every parameter
  stays, a float that hardly steps or steps out of the bound it is on, an integer that lands back on itself and
  is pushed out of its range, a categorical with no other choice (`Guard.DuplicateStaysExactlyWhen`); a turn that
  simulates the same point again is in `Witnesses.PerturbedTurnRepeats`.
* "A model that returns 3.14159265 where it previously returned 3.1415926535 has proposed the same point"
  (`sil_agent/agent/guards.py:187-190`): the tolerance is a billionth, and the two are further apart
  (`Guard.SameToABillionth`).
* A passed candidate is inside its bounds (`sil_agent/agent/guards.py:157-173`) exactly when every integer
  parameter's bounds contain an integer (`Guard.ValidatedConforms`, `Guard.MovedConforms`,
  `Witnesses.PassedOutsideItsBounds`).
* The grid, sized at its best, fits the budget exactly when the categorical product alone does
  (`Grid.GridFitsBudgetExactlyWhen`, `Witnesses.ChoicesExceedTheBudget`). The sizing loop finds the best
  size exactly when the floating-point seed does not overshoot (`Grid.PointsPerAxis`); from an overshooting
  seed the grid of a space without integer axes never fits, while rounding may still save one with them
  (`Grid.SizedGridFitsBudget`). A seed overshoots where floats are coarser than integers: the budget
  9007199254740995 with one float axis is rounded up to a seed one larger
  (`Witnesses.OvershootExceedsTheBudget`).
* The derived termination reason is the one the loop returned exactly when the final state tells it
  (`Metrics.DerivedReasonAgreesExactlyWhen`); the three ways it fails are
  `Witnesses.StagnationReadsAsExhaustion`, `Witnesses.ExhaustionReadsAsSuccess` and
  `Witnesses.BudgetReadsAsRejections`, the last of which only a strategy that charges euros, from outside the
  repository, can reach.
* The lock excludes because tokens are distinct; with a shared token a stale holder's release deletes the
  new owner's lease (`Lease.SharedTokensBreakExclusion`).

## Model

| member | source | states |
|---|---|---|
| Workers.TableIsAlwaysPrefixUpToCost | sil_agent/agent/loop.py:236-407 | for any number of workers, every interleaving of load, propose and simulate, record, insert, save and leave, with crashes and snapshot corruption between any two, the episodes table is up to cost a prefix of the one history an uninterrupted worker writes; a worker leaving without a collision leaves the whole of it, with that run's reason |
| Workers.TableIsAlwaysPrefixOfWhole | sil_agent/agent/loop.py:236-407 | when no crash point shows in any cost, the table is exactly such a prefix, costs included |
| Workers.TableIsAlwaysContiguous | sil_agent/agent/loop.py:12-21 | whatever strategies cost, in every interleaving the table is a gapless history and every worker's state is its own rehydration on a prefix of it |
| Workers.StepKeepsConsistency | sil_agent/persistence/repo.py:128-172 | any step of any worker leaves the recorded history alone or appends the turn taken from the whole of it, with the calls behind it on record |
| Workers.RowsAreNeverLost | sil_agent/persistence/repo.py:131-135 | between any two points of an interleaving no row is lost, replaced or reordered |
| Workers.AnyWorkerCanFinish | sil_agent/agent/loop.py:7-27 | from any point any number of workers can reach, one worker restarted and left alone records every episode of the uninterrupted run up to cost and marks it done |
| Workers.WorkerFinishes | sil_agent/agent/loop.py:236-407 | a worker at a loop head, left alone, records exactly what the uninterrupted continuation holds and leaves its final snapshot |
| Durability.ResumeIsInvisibleUpToCost | sil_agent/agent/loop.py:7-27 | resuming in a fresh process after any number of episodes, the next call recorded or not, gives the same run up to cost, for the same reason |
| Durability.ResumeIsInvisibleExactlyWhen | sil_agent/agent/loop.py:289-351 | at each crash point, resuming gives the same run costs included if and only if the next proposal is not a failure charged to the episode before, nor a recorded fresh call whose replay is reported differently |
| Durability.PaidCallsShow | sil_agent/services/replay.py:119-171 | when every answer is charged at least one call, a crash after recording shows in the cost exactly when the call was not on record before |
| Durability.SameComplete | sil_agent/strategies/base.py:72-86 | histories equal up to cost lead to runs equal up to cost that stop for the same reason, whatever cost is carried and whichever calls are on record |
| Durability.AlongTheWhole | sil_agent/agent/loop.py:90-169 | a process standing on the first n episodes of the run up to cost takes the run's turn and ends with the run, up to cost |
| Durability.TracelessStrategies | sil_agent/agent/loop.py:347-351 | a strategy that calls no model leaves no trace of a crash in any cost; one that never fails loses no carried cost |
| Durability.WholeRespectsBudget | sil_agent/agent/loop.py:241-261 | evaluations and rejections stay within their allowances, episodes within their sum minus one, and a stop on the evaluation count means exactly that many simulator results |
| Durability.TurnNeedsAllowance | sil_agent/agent/loop.py:255-274 | a turn is only taken while evaluations, rejections, euros and wall clock are unspent, the target is unmet and no detector fires |
| Durability.CompleteTurns | sil_agent/agent/loop.py:238-407 | every episode the uninterrupted run adds is the turn taken from the history before it, and it ends at a stop whatever cost is carried |
| Durability.EveryTurnIsGuarded | sil_agent/agent/loop.py:308-335 | from any history, every point simulated, directly or perturbed, has exactly the declared names, each in kind and bounds; anything else is recorded as an error |
| Durability.SimulatedPointsConform | sil_agent/agent/guards.py:83-124 | so every episode of a run simulated a conforming point at its own index, or records an error |
| Runner.Turn | sil_agent/agent/loop.py:241-361 | the source's branches up to the commit give the turn defined from the state, the cost last reported and the calls on record, and the call to be recorded |
| Runner.Advance | sil_agent/agent/loop.py:384-398 | the bookkeeping after the commit gives the kept state |
| Runner.Commit | sil_agent/agent/loop.py:372-399 | the episode is inserted exactly when its index is free, and only then the state moves on and its snapshot is saved; dying leaves no more than that |
| Runner.TakeTurn | sil_agent/agent/loop.py:241-402 | one pass through the loop leaves, wherever it dies or stops, only turns of the uninterrupted continuation and the calls behind them |
| Runner.RunTurns | sil_agent/agent/loop.py:236-402 | every turn until an exit, a collision or death; terminates for every strategy and simulator |
| Runner.RunLoop | sil_agent/agent/loop.py:215-413 | unless killed or beaten to an index, the loop ends with the uninterrupted continuation of the loaded episodes and its reason; whenever it stops it has only appended turns and left other runs alone |
| Loop.KeptIsRecomputed | sil_agent/agent/loop.py:384-398 | best, budget counters and index kept incrementally equal their recomputation from the episodes, at every loop head |
| Loop.NextSpends | sil_agent/agent/state.py:497-540 | each turn spends one evaluation or one rejection and is numbered one past the last |
| Loop.RecordedDeltaMeans | sil_agent/agent/loop.py:340-345 | every recorded delta is positive exactly on a recorded improvement between feasible results, is as large as the objective values are apart, and is nothing without an incumbent |
| Loop.TurnFromHead | sil_agent/agent/loop.py:255-398 | from a loop head a stop is the end of the uninterrupted continuation, and an inserted episode leads to the next loop head |
| History.RehydrationIgnoresSnapshot | sil_agent/agent/loop.py:151-169 | rehydration gives the same state whatever the snapshot's best, index and counters say, and rehydrating twice changes nothing |
| History.RecomputeBest | sil_agent/agent/loop.py:102-115 | the loop computes the incumbent function whose meaning is the next three rows |
| History.BestIsFirstUnbeaten | sil_agent/agent/loop.py:102-115 | the recomputed incumbent is the earliest evaluated episode no evaluated episode beats, and None exactly when none was evaluated |
| History.FirstUnbeatenIsUnique | sil_agent/agent/loop.py:102-115 | at most one episode fits that description |
| History.IncumbentIsOptimal | sil_agent/agent/loop.py:102-115 | a feasible incumbent has the best objective value of all feasible results and there is one once anything was feasible; an infeasible one has the least total violation |
| History.NextIndexIsOnePastTheLargest | sil_agent/agent/loop.py:90-99 | the next index is one past the largest recorded, gaps or not |
| History.TargetStaysMet | sil_agent/agent/loop.py:172-185 | a target once met stays met by any feasible result that beats the one meeting it, in both directions |
| History.TargetIsTheLimit | sil_agent/agent/loop.py:172-185 | a feasible result meets the target exactly when it is no worse than it, the target itself included |
| History.RecomputeBudget | sil_agent/agent/loop.py:118-148 | the sums over the record are the counters kept one episode at a time |
| Durability.CountersCount | sil_agent/agent/loop.py:118-148 | the recomputed counters are the number of measured and of unmeasured episodes, under unchanged limits |
| History.Rehydrate | sil_agent/agent/loop.py:151-169 | the recovered state is the rehydration function of the loaded one |
| Domain.BeatsIsStrictWeakOrder | sil_agent/agent/state.py:320-352 | the comparison is a strict weak order in either direction, feasible and infeasible results included |
| Domain.ViolatingMoreLoses | sil_agent/agent/state.py:334-348 | of two infeasible results the one that violates more on top of the same is beaten and never beats |
| Domain.TotalViolationIsTheSum | sil_agent/agent/state.py:315-318 | the total violation of one violation is that violation, and of two lists together the sum of both |
| Domain.DeltaAgreesWithBetterThan | sil_agent/agent/state.py:354-364 | between feasible results the recorded delta is positive exactly on an improvement |
| Persistence.Repository.SaveRun | sil_agent/persistence/repo.py:75-126 | the upsert stores the snapshot's columns, keeps goal, seed, names and experiment, and touches no other row |
| Persistence.LastSnapshotCounts | sil_agent/persistence/repo.py:75-126 | of several snapshots only the last counts, while goal, seed, names and experiment stay those of the first |
| Persistence.Repository.AppendEpisode | sil_agent/persistence/repo.py:128-172 | a row is written exactly when its index is free, and nothing else changes |
| Persistence.Repository.LoadRun | sil_agent/persistence/repo.py:247-272 | the stored snapshot with its episodes in index order, or nothing |
| Persistence.Repository.RecordCall | sil_agent/persistence/repo.py:174-211 | the first reply under a key is the one kept |
| Persistence.ReplayKeepsTokens | sil_agent/services/replay.py:123-171 | a replay of a recorded reply reports the tokens of the call that was recorded, no call and no euro |
| Persistence.OrderedTable | sil_agent/persistence/repo.py:336-352 | reading back a gapless history written row by row gives that history |
| Harness.EnsureRun | sil_agent/eval/harness.py:153-189 | the stored run rehydrated, or a new row; dying instead changes nothing, and no other run's rows change |
| Harness.FreshIsDurable | sil_agent/eval/harness.py:153-189 | a cell nothing is stored of meets what executing a cell asks for |
| Harness.ExecuteCell | sil_agent/eval/harness.py:192-222 | whenever the process dies the stored cell is up to cost a prefix of the uninterrupted run, exactly when crashes do not show; otherwise it is the whole of it under its final snapshot; a done or failed cell is skipped and nothing is written |
| Harness.KillAndReinvoke | sil_agent/eval/harness.py:192-222 | after any finite list of crash points and one clean invocation the episodes are those of a run never interrupted up to cost, exactly those when crashes do not show, with its snapshot and derived reason, and one more invocation is a skip |
| Experiment.Execute | sil_agent/eval/harness.py:225-262 | every cell of an experiment ends finished, as the run its own row describes, or as it was if marked failed; a repeated cell is skipped |
| Harness.FinishedLoadsAsFinalState | sil_agent/persistence/repo.py:247-272 | a finished cell loads as the final state of the uninterrupted run, its episodes the same up to cost |
| Harness.UnfinishedIsNotSkipped | sil_agent/eval/metrics.py:112-121 | a snapshot derives a reason exactly when its run is done or failed, so any other cell is continued |
| Harness.ContinuesAlong | sil_agent/agent/loop.py:236-407 | part of the run, continued by a process that carries nothing, leads to the whole of it up to cost, exactly when crashes do not show |
| Harness.ProgressStaysAlong | sil_agent/agent/loop.py:236-402 | whatever part of the loop ran from there, the history is still along the uninterrupted run |
| Harness.ProgressStaysOnRecord | sil_agent/agent/loop.py:372-402 | so the table it leaves is a recorded prefix again |
| Metrics.DerivedReasonAgreesExactlyWhen | sil_agent/eval/metrics.py:104-133 | the reason derived from the final snapshot is the one the loop returned if and only if not both allowances are spent and one is, or the target is met, or no detector fires and no feasible incumbent stands under a target |
| Metrics.DerivedReasonOfPlainRun | sil_agent/eval/metrics.py:104-133 | with no target, no detectors and euro-free rejections the two reasons are always the same |
| Metrics.FreeRejectionsNeverDoublySpend | sil_agent/eval/metrics.py:122-126 | with euro-free rejections no run ends with both allowances spent |
| Metrics.BestFeasibleCurve | sil_agent/eval/metrics.py:150-172 | the loop computes the curve function of the history |
| Metrics.CurveEntryIsIncumbent | sil_agent/eval/metrics.py:150-172 | the entry of each evaluation is the objective of the recomputed incumbent at that point if feasible and None otherwise |
| Metrics.RegretMeans | sil_agent/eval/metrics.py:136-147 | regret is the distance from the known optimum, and nothing for a value no worse than it |
| Metrics.RegretEntryIsIncumbents | sil_agent/eval/metrics.py:198-207 | the regret entry of an evaluation is that of its feasible incumbent, and past the last evaluation the last entry is held |
| Metrics.FeasibleAreOnTheCurve | sil_agent/eval/metrics.py:150-196 | something feasible is counted exactly when the curve reaches a value |
| Metrics.RegretCurveNeverRises | sil_agent/eval/metrics.py:211-243 | the padded regret curve has one entry per budgeted evaluation and never rises |
| Metrics.SummariseRun | sil_agent/eval/metrics.py:181-243 | counts, feasible fraction, wall clock, best objective, regret and padded curve agree with the history and the derived reason; model and compliant calls are counted by the cost recorded, schema failures by the error |
| Metrics.SummaryCountsCallsExactlyWhen | sil_agent/eval/metrics.py:74-76 | on the uninterrupted run the model calls counted are the calls that reached a provider, and the compliant ones those accepted at the first attempt, if and only if no ask fails after an episode charged with such a call |
| Metrics.CountedCalls | sil_agent/eval/metrics.py:214-225 | counting by cost counts the calls made and those charged again to a failed ask |
| Metrics.ComplianceIsARate | sil_agent/eval/metrics.py:85-101 | schema compliance is the fraction of model calls and schema failures that were compliant, and is missing exactly when there were neither |
| Metrics.EvaluationsToThreshold | sil_agent/eval/metrics.py:246-259 | the first entry within the threshold, or None exactly when there is none; an entry on the threshold is within it; on a curve that never rises every later entry is within it too |
| Stagnation.FiresExactlyWhenIncumbentIsOld | sil_agent/agent/stagnation.py:75-88 | on histories the loop grades, the detector fires exactly when at least a window of episodes was evaluated and the incumbent is none of the last window; so never at exactly a window |
| Stagnation.RecordedHistoriesAreWellGraded | sil_agent/agent/loop.py:340-345 | whatever any number of workers do, every improved flag on record was computed against the incumbent of the episodes before |
| Stagnation.LoopHistoriesAreWellGraded | sil_agent/agent/loop.py:340-345 | so it is in every prefix of the uninterrupted run |
| Stagnation.StagnatesExactlyWhen | sil_agent/agent/loop.py:267-274 | with such detectors the loop stops for stagnation exactly when no exit tested before fires and the incumbent has left some window of evaluations |
| Stagnation.IncumbentIsLastImprovement | sil_agent/agent/loop.py:384-391 | on such histories the incumbent is the last evaluated episode flagged as an improvement |
| Stagnation.RejectionsNeverMatter | sil_agent/agent/stagnation.py:75-88 | inserting a rejected episode anywhere leaves the verdict alone |
| Stagnation.CheckAll | sil_agent/agent/stagnation.py:185-195 | the first of any detectors to fire wins, and none means none fires |
| Guard.Validate | sil_agent/agent/guards.py:83-124 | the loop over the declared parameters computes the guard function, refusals and their order included, whose meaning is the next rows |
| Guard.PassedIsNearest | sil_agent/agent/guards.py:83-173 | every number that passes is the value of its declared bounds nearest to the number proposed, for an integer axis the nearest integer, and every choice is the one proposed |
| Guard.AcceptedExactlyWhen | sil_agent/agent/guards.py:136-173 | a float axis accepts exactly a finite number, an integer axis exactly an integral one, a categorical axis exactly one of its choices |
| Guard.CleanedIsNearest | sil_agent/agent/guards.py:147-173 | nearness for one value, whatever the number read |
| Guard.ValidatedConforms | sil_agent/agent/guards.py:147-173 | a passed candidate has exactly the declared names, and every value is in kind and bounds if and only if every integer axis holds an integer |
| Guard.RefusedExactlyWhen | sil_agent/agent/guards.py:83-124 | refusal happens for exactly an unknown name, a missing name or a value that is not a finite number, an integral one or a choice, as its axis asks |
| Guard.ValidateIsIdempotent | sil_agent/agent/guards.py:83-124 | validating twice changes nothing more, and the second pass reports nothing clamped or coerced |
| Guard.ReportNamesWhatChanged | sil_agent/agent/guards.py:100-124 | clamped names exactly the parameters whose number changed; coerced exactly the numeric ones given as text and the integer ones given as a float |
| Guard.ConformingPassesUnchanged | sil_agent/agent/guards.py:83-124 | a conforming candidate passes as it is |
| Guard.IsDuplicate | sil_agent/agent/guards.py:176-214 | true exactly when some evaluated episode has the same parameters within the tolerance |
| Guard.SameToABillionth | sil_agent/agent/guards.py:176-214 | numbers are the same exactly when no further apart than a billionth, of whatever kind; the two of the documentation are further apart |
| Guard.PerturbCandidate | sil_agent/agent/guards.py:217-273 | the loop moves every declared parameter by its own draws and marks the candidate |
| Guard.FloatMovesBy | sil_agent/agent/guards.py:250-267 | a float moves to the value of its bounds nearest to where its step leads |
| Guard.IntegerMovesBy | sil_agent/agent/guards.py:250-264 | an integer moves to the integer of its bounds nearest to where its rounded step leads, or if that is where it was, nearest to the drawn neighbour |
| Guard.ChoiceMoves | sil_agent/agent/guards.py:244-248 | a categorical moves to another choice if there is one |
| Guard.AnyChoiceCanBePicked | sil_agent/agent/guards.py:244-248 | and some draw moves it to any other choice |
| Guard.MissingMovesFromTheMiddle | sil_agent/agent/guards.py:250-253 | a number the candidate does not mention moves from the middle of its bounds |
| Guard.RoundIsNearestEven | sil_agent/agent/guards.py:257-258 | rounding goes to the nearest integer and on a tie to the even one |
| Guard.MovedConforms | sil_agent/agent/guards.py:217-273 | whatever the draws, the moved candidate conforms if and only if every integer axis holds an integer |
| Guard.DuplicateStaysExactlyWhen | sil_agent/agent/guards.py:217-273 | for any space, conforming candidate and draws, the perturbed candidate is the same point to the duplicate test if and only if every parameter stays: a float that hardly steps or steps out of its bound, an integer clamped back, a single choice |
| Guard.IntegerStaysExactlyWhen | sil_agent/agent/guards.py:257-264 | the integer case: it is left in place exactly when the step lands back on it and the one-unit correction points out of the range |
| Guard.HasIntegerMeans | sil_agent/agent/guards.py:171-172 | the inward-rounded bounds are in order exactly when some integer is in the bounds |
| Replay.EpisodesComeFromTheRecord | sil_agent/services/replay.py:119-171 | over any schedule of one worker's crashes and resumptions, with a model that may answer differently each time and any strategy that makes its prompt from the history, every episode carrying a proposal is the turn of the one reply on record under the prompt of the episodes before it |
| Replay.OfflineReplayReproducesExactlyWhen | sil_agent/services/replay.py:14-26 | an offline replay over the calls a worker left on record reproduces its episodes up to cost, asking no model and recording nothing, if and only if no ask had failed |
| Replay.ReplayIsASchedule | sil_agent/services/replay.py:97-112 | the replay is the worker's own schedule, started over with the record alone and offline |
| Replay.RecordedRepliesAreFinal | sil_agent/persistence/repo.py:174-211 | between any two points of a schedule no episode is lost and no recorded reply changes |
| Replay.EpisodesComeFromOnePlan | sil_agent/strategies/llm_agent.py:138-201 | so every single-shot episode carrying a proposal tried its own entry of the one recorded plan |
| Replay.NeverAskedAgain | sil_agent/strategies/llm_agent.py:111-120 | once the single-shot plan is recorded the model is never asked again; offline it is never asked |
| Replay.RecordedPlanIsFinal | sil_agent/services/replay.py:119-171 | and the plan never changes |
| Replay.CommitKeepsConsistency | sil_agent/agent/loop.py:372-398 | committing an episode keeps every episode accounted for by the record |
| Replay.AskingIsTheMethods | sil_agent/services/replay.py:119-171 | asking and recording in the worker's schedule are what the strategy and its router promise: the same record, proposal and cost |
| Replay.CachingRouter.Complete | sil_agent/services/replay.py:119-171 | replay on a hit, refusal offline, otherwise one inner call recorded only if it succeeded, with the hit and miss counts, no other run touched |
| Replay.SingleShot.Propose | sil_agent/strategies/llm_agent.py:138-201 | what the strategy and its router come to together: the entry at the position derived from the history, nothing left past the end, and the reported cost |
| Replay.NextEntryIsServed | sil_agent/strategies/llm_agent.py:185-201 | with the plan on record, a worker no exit stops proposes the next entry as long as there is one, and finds nothing left exactly when it has been through the whole plan |
| Replay.WholePlanIsServed | sil_agent/strategies/llm_agent.py:138-201 | a schedule that nothing hinders commits one episode for every entry of the plan, in order, and then goes down |
| Grid.PointsPerAxis | sil_agent/strategies/grid.py:99-129 | the loop terminates, and its result is the greatest k with k^d times the categorical size within the budget if and only if the seed does not overshoot |
| Grid.SteppedUpIsGreatest | sil_agent/strategies/grid.py:126-127 | stepping up from a size that fits ends at the greatest that does |
| Grid.GridFitsBudgetExactlyWhen | sil_agent/strategies/grid.py:155-159 | for the best size, the number of grid points is within the budget if and only if the categorical product is |
| Grid.SizedGridFitsBudget | sil_agent/strategies/grid.py:99-159 | for the size the loop returns from a given seed, the grid fits if the categorical product does and the seed does not overshoot, and without integer axes only then |
| Grid.AxisValues | sil_agent/strategies/grid.py:51-96 | the axis loop, de-duplication included, computes the axis function |
| Grid.AxisInSpec | sil_agent/strategies/grid.py:51-96 | every axis is non-empty and inside its bounds when integer bounds hold an integer, the single centre point included |
| Grid.AxisAscends | sil_agent/strategies/grid.py:51-96 | a numeric axis ascends, and a categorical one is its choices in their order |
| Grid.FloatAxisIsEven | sil_agent/strategies/grid.py:83-96 | a float axis of several points runs from bound to bound in equal steps |
| Grid.SinglePointIsTheMiddle | sil_agent/strategies/grid.py:75-81 | an axis of one point is the middle of its bounds, for an integer axis the nearest integer to it |
| Grid.IntegerAxisIsRounded | sil_agent/strategies/grid.py:83-94 | the values of an integer axis are exactly the evenly spaced positions, rounded and held inside the bounds |
| Grid.AxisSeparated | sil_agent/strategies/grid.py:80-96 | no two values of an axis agree within the tolerance, given distinct choices and wide enough spacing |
| Grid.EncodeUndoesDigits | sil_agent/strategies/grid.py:161-178 | decoding an index below the total gives positions in range that encode back to it |
| Grid.DigitsUndoEncode | sil_agent/strategies/grid.py:161-178 | positions in range encode an index below the total that decodes to them |
| Grid.PointsAreTheProduct | sil_agent/strategies/grid.py:161-178 | the points are exactly the Cartesian product of the axes |
| Grid.DifferentPoints | sil_agent/strategies/grid.py:161-178 | different indices give points that differ beyond the tolerance on some axis |
| Grid.PointAt | sil_agent/strategies/grid.py:161-178 | the odometer, walked backwards, computes the point of the index |
| Coverage.GridRunCoversTheGrid | sil_agent/strategies/grid.py:180-204 | a grid run nothing hinders simulates point 0 to the last in order, each once and no two alike, and stops EXHAUSTED below the budget and BUDGET at it |
| Coverage.EveryCombinationIsSimulated | sil_agent/strategies/grid.py:132-204 | every combination of axis values is simulated by some episode |
| Coverage.PointsAreDistinct | sil_agent/agent/guards.py:176-214 | no grid point is a duplicate of another to the duplicate test |
| Lease.FreshLeaseOwnsTheKey | sil_agent/services/locks.py:139-174 | in every interleaving of acquire, renew, release and time, a worker whose ttl has not elapsed since its last grant or renewal, and who has not released, owns the key |
| Lease.LeasesAreExclusive | sil_agent/services/locks.py:139-174 | two live leases never coexist |
| Lease.FreshLeaseRenews | sil_agent/services/locks.py:154-167 | in every interleaving a worker whose lease is fresh knows it holds it, and its renewal succeeds: granted anew from now, it owns the key at every instant until its ttl has passed again |
| Lease.ReleaseFreesTheKey | sil_agent/services/locks.py:169-174 | in every interleaving the release of a fresh lease frees the key at once, and any worker can take it |
| Lease.NonOwnersChangeNothing | sil_agent/services/locks.py:41-57 | a non-owner's renew or release leaves the store alone, and nobody acquires from a live owner |
| Lease.ActionsAreTheMethods | sil_agent/services/locks.py:139-174 | each action of the protocol is what the worker's lock method promises of the store and of its held flag, leaving every other worker alone |
| Lease.CrashedLeaseExpires | sil_agent/services/locks.py:99-131 | once a silent holder's ttl has passed any worker acquires |
| Lease.SharedTokensBreakExclusion | sil_agent/services/locks.py:90-97 | with equal tokens a stale release deletes a live lease, so distinct tokens are needed |
| Lease.RunLock.Acquire | sil_agent/services/locks.py:139-152 | set if absent with expiry, and the held flag follows a success |
| Lease.RunLock.Renew | sil_agent/services/locks.py:154-167 | compare and extend when held; losing the lease clears the flag |
| Lease.RunLock.Release | sil_agent/services/locks.py:169-174 | compare and delete when held; never another holder's key |
| Instances.OptimumIsWhereDeclared | sil_agent/simulators/instances.py:167-218 | for every dimension, orthogonal matrix and base, the instance at its declared location takes the base's value at its published optimiser |
| Instances.UnitCubeIsTheBasesDomain | sil_agent/simulators/instances.py:145-242 | each rotated coordinate is stretched onto the declared bounds of the base: 0 to the lower, 1 to the upper, equal steps to equal steps, and it is in bounds exactly when it comes from the unit interval |
| Instances.MadeExactlyWhen | sil_agent/simulators/instances.py:174-197 | an instance is made exactly when there are no constraints, every parameter is numeric, an optimiser is published and a location was found |
| Instances.CoordinatesAreInvertible | sil_agent/simulators/instances.py:221-242 | the change of coordinates and its inverse undo each other |
| Instances.InstanceTakesTheBasesValues | sil_agent/simulators/instances.py:221-242 | over the whole space the instance takes exactly the base's values |
| Instances.LowerBoundsAreShared | sil_agent/simulators/instances.py:196-218 | a value bounds the instance from below if and only if it bounds the base |
| Instances.RotationUndoesTranspose | sil_agent/simulators/instances.py:196-204 | an orthogonal matrix undoes its transpose, on which solving for the shift rests |
| Instances.Adjoint | sil_agent/simulators/instances.py:196-204 | moving a matrix across a dot product transposes it |
| Instances.DrawOptimumLocation | sil_agent/simulators/instances.py:123-142 | the first draw clear of the grid in every coordinate, or none exactly when none of the allowed draws is |
| Instances.ClearExactlyWhenAwayFromRoundNumbers | sil_agent/simulators/instances.py:117-135 | a location is clear if and only if every coordinate is at least the clearance away from every multiple of the grid step |
| Instances.ThereIsRoom | sil_agent/simulators/instances.py:117-120 | a location between round numbers is clear, and none on a twentieth is |
| Retry.CallWithBackoff | sil_agent/services/retry.py:114-163 | stops at the first attempt that is not transient or at the last allowed; sleeps exactly once between attempts, each sleep the policy's delay within its limit; the total wait is within the limits in force and the larger cap per sleep and, without Retry-After, within base times 2^n minus base and the cap per sleep; says whether a Retry-After was seen |
| Retry.SettlesOnce | sil_agent/services/retry.py:138-163 | exactly one attempt is the stopping one |
| Retry.DelayWithinLimit | sil_agent/services/retry.py:87-98 | every delay is non-negative and within the ceiling, or within the capped Retry-After |
| Retry.InstructionIsFollowed | sil_agent/services/retry.py:94-95 | a Retry-After is waited in full up to the cap |
| Retry.JitterIsFull | sil_agent/services/retry.py:97-98 | without one, a draw is that part of the base times a power of two, or of the cap, from nothing up to all of it |
| Retry.WaitsWithinLimits | sil_agent/services/retry.py:138-156 | the sleeps of a call add up to no more than the limits in force after its attempts |
| Retry.LimitsAreGeometric | sil_agent/services/retry.py:97-98 | without Retry-After the limits after n attempts add up to at most the base doubled n times, less the base |
| Retry.LimitsAreCapped | sil_agent/services/retry.py:94-98 | they never exceed the larger of the two caps per attempt |
| Retry.DoubledMeaning | sil_agent/services/retry.py:97-97 | repeated doubling is multiplication by the power of two |
| Router.DefaultRouter.Generate | sil_agent/services/router.py:309-365 | the completion of the first provider in the order to succeed, logged once under that provider; all failed names exactly the usable ones |
| Router.AnswerIsTheFirstSuccess | sil_agent/services/router.py:322-365 | the answer comes from the first provider that is usable and succeeds, under a spec of that provider, the one asked for if it is the primary, and there is none exactly when there is no such provider |
| Router.OrderCounts | sil_agent/services/router.py:322 | the primary comes first and once, and every other fallback provider as often as configured |
| Router.OrderKeepsOrder | sil_agent/services/router.py:322 | any two fallback providers come in the order they are configured in |
| Router.ActiveExactlyWhen | sil_agent/services/router.py:325-339 | a provider can be tried exactly when it is registered and is the primary, which keeps the spec asked for, or can be fallen back on |
| Router.FallbackKeepsToItsProvider | sil_agent/services/router.py:413-434 | a fallback never carries one vendor's model to another |
| Router.FallbackExactlyWhen | sil_agent/services/router.py:413-434 | a provider can be fallen back on exactly when a tier uses it, whose spec it then takes, or it has a model of its own, under the limits of the original |
| Router.SpecIsTheTiers | sil_agent/services/router.py:302-307 | the spec asked for is that of the tier, and there is none exactly when the tier has none |
| Router.DefaultRouter.Complete | sil_agent/services/router.py:228-300 | on success calls is one more than repairs, tokens are the sums over all replies, and every earlier reply failed to parse; failures say whether the model or the providers gave out; provider calls stay within the bound |
| Router.FirstTryExactlyWhen | sil_agent/agent/state.py:446-454 | a completed answer counts as accepted at the first attempt exactly when its first reply was |
| Router.MostCallsAltogether | sil_agent/services/router.py:254-300 | the bound is repair rounds times usable providers times attempts |
| Witnesses.ResumingShows | sil_agent/agent/loop.py:289-351 | a run whose failed call was never on record, for which dying between episodes, and dying between recording a call and committing its episode, both show in the costs |
| Witnesses.OutageCountsAsCall | sil_agent/eval/metrics.py:214-231 | one call and one outage count as two model calls, both compliant, and one schema failure |
| Witnesses.StagnationReadsAsExhaustion | sil_agent/eval/metrics.py:128-133 | a run stopped by the no-improvement detector on two equal results derives EXHAUSTED |
| Witnesses.ExhaustionReadsAsSuccess | sil_agent/eval/metrics.py:128-133 | a run that ran dry short of its target derives SUCCESS |
| Witnesses.BudgetReadsAsRejections | sil_agent/eval/metrics.py:122-126 | a run stopped on its euro budget with the last rejection derives REJECTIONS |
| Witnesses.PerturbedTurnRepeats | sil_agent/agent/loop.py:324-333 | a turn that perturbs a duplicate on its upper bound and simulates the same point again |
| Witnesses.PassedOutsideItsBounds | sil_agent/agent/guards.py:157-173 | against bounds without an integer a candidate passes and is outside them |
| Witnesses.ChoicesExceedTheBudget | sil_agent/strategies/grid.py:114-118 | two choices on a budget of one make a grid of two |
| Witnesses.OvershootExceedsTheBudget | sil_agent/strategies/grid.py:116-129 | for the budget 9007199254740995 the seed, rounded up by one, is kept and the grid exceeds the budget |

## Left out

- Workers.TableIsAlwaysPrefixUpToCost: assumes that costs decide nothing, as everywhere in the repository; TableIsAlwaysContiguous holds without it.
- Workers.TableIsAlwaysPrefixOfWhole: asks that no crash point shows in any cost, which is exact for one crash; a run that calls a model is covered by the statement up to cost.
- Harness.ExecuteCell: one process at a time on a cell whose costs decide nothing; the FAILED status a worker that loses an insert writes into the snapshot under two racing workers is in Workers.dfy as a row nobody relies on.
- Harness.KillAndReinvoke: assumes the same, and starts from a cell not marked failed, which is skipped as it is.
- Experiment.Execute: assumes the same of every cell; cells with one id are one cell.
- Durability.ResumeIsInvisibleExactlyWhen: takes the model's answer to a prompt, and whether a proposal fails, to be the same when asked again.
- Replay.EpisodesComeFromTheRecord: one worker at a time, because a router that loses the race to record returns its own answer.
- Grid.PointsPerAxis: the floating-point root that seeds the loop is a parameter.
- Guard.PerturbCandidate: the Gaussian step, the sign and the choice are arbitrary draws, so nothing is said of their distribution, nor of a point moved onto another one tried before.
- Replay.OfflineReplayReproducesExactlyWhen: up to cost, for a strategy and detectors that do not read costs and answers not charged in euros.
- Metrics.SummaryCountsCallsExactlyWhen: the uninterrupted run; one that was killed counts fewer calls where a recorded one was replayed.
- Retry.CallWithBackoff: asks for at least one attempt, without which the source fails its own assertion.
- Instances.OptimumIsWhereDeclared: takes rows and columns orthonormal as what orthogonal means, and over exact reals.
- Coverage.GridRunCoversTheGrid: the grid of the best size, which is the code's when its seed does not overshoot; asks for axis spacing above the duplicate tolerance, distinct choices, a simulator that answers and enough wall clock.
- Providers and their errors over HTTP, the real database and key store, migrations, environment variables: only table and key effects are kept.
- Timestamps, durations, rationales, prompts, messages, callbacks and printing carry no decision and are dropped.
- Pacing by the monotonic clock, and parsing the Retry-After header.
- The name of the model in a cost record, which a replay also marks.
- The text of repair prompts: a provider's behaviour may differ in every round, whatever it was shown.
- JSON extraction, schema validation and constraint evaluation: an arbitrary parse, and the violations the simulator reports.
- The diversity detector, cell statistics, bootstrap and significance tests.
- Random search, the Optuna strategy and the planner that reads the history: instances of an arbitrary proposal function.
- NumPy's rotation sampling and the benchmark formulas: an arbitrary orthogonal matrix and an arbitrary objective.
- Hash collisions of run ids and of prompt keys.
- The command line, reports, plots and sweeps.
