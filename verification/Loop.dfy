/** What the episode loop computes.  `Next` says what one turn does; `Complete` is the run nobody
    interrupts; `Progress` is what a process has done of it. */
module Loop {
  import opened Domain
  import opened History
  import opened Guard
  import opened Persistence

  /** What asking the strategy gives. */
  datatype Proposal = Proposed(candidate: Candidate) | NothingLeft | ProviderFailed(kind: string)

  /** What the model answers to a prompt, and what it charges for answering. */
  datatype Answer = Answer(plan: seq<Params>, cost: Cost)

  /** One configured run.  The strategy sees the goal, the evaluation budget, the history, the seed and
      the index; `prompt` is the one model call the ask makes, if it makes one.  The simulator's answer,
      wall time included, depends on the parameters and the index; perturbation draws depend on the
      seed, the index, the space and the candidate perturbed. */
  datatype Run = Run(
    runId: RunId, goal: Goal, seed: int, limits: Budget, simulator: string, strategy: string,
    propose: (Goal, nat, seq<Episode>, int, nat) -> Proposal,
    prompt: (Goal, nat, seq<Episode>, int, nat) -> Option<string>,
    answer: string -> Answer,
    simulate: (Params, nat) -> Outcome,
    nudges: (int, nat, Space, Params) -> nat -> Nudge,
    stuck: (seq<Episode>, Goal) -> bool,
    read: Reader)

  predicate ValidRun(run: Run) {
    ValidSpace(run.goal.space) && run.limits.ValidLimits()
  }

  /** The state of a run whose recorded episodes are `history`. */
  function StateOf(run: Run, history: seq<Episode>, status: Status): RunState {
    RunState(run.runId, run.goal, status, history, BestOf(history, run.goal.objective),
             BudgetOf(run.limits, history), NextIndex(history), run.seed)
  }

  /** A loaded state belongs to the run it configures. */
  predicate Belongs(state: RunState, run: Run) {
    state.runId == run.runId && state.goal == run.goal && state.seed == run.seed &&
    state.budget.Unspent() == run.limits.Unspent()
  }

  lemma {:induction false} RehydratedIsStateOf(state: RunState, run: Run)
    requires Belongs(state, run)
    ensures Rehydrated(state) == StateOf(run, state.history, state.status)
  {
    BudgetKeepsLimits(state.budget, state.history);
    BudgetKeepsLimits(run.limits, state.history);
  }

  // ---------------------------------------------------------------- one turn

  /** The exits tested before a proposal is asked for, in their order. */
  function HeadReason(run: Run, state: RunState): Option<Reason> {
    if state.budget.Exhausted() then Some(BudgetSpent)
    else if state.budget.RejectionsExceeded() then Some(Rejections)
    else if GoalSatisfied(state.best, run.goal) then Some(Success)
    else if run.stuck(state.history, run.goal) then Some(Stagnation)
    else None
  }

  function Ask(run: Run, state: RunState): Proposal {
    run.propose(run.goal, run.limits.maxEvaluations, state.history, run.seed, state.stepIdx)
  }

  function Prompt(run: Run, state: RunState): Option<string> {
    run.prompt(run.goal, run.limits.maxEvaluations, state.history, run.seed, state.stepIdx)
  }

  /** The call the ask leaves on record: none when it fails. */
  function Asked(run: Run, state: RunState): set<string> {
    if Ask(run, state).ProviderFailed? || Prompt(run, state).None? then {} else {Prompt(run, state).value}
  }

  function Answered(run: Run, key: string): StoredCall {
    Stored(run.answer(key).plan, run.answer(key).cost)
  }

  /** The cost the strategy object reports after the ask: whatever it last reported when the ask failed,
      nothing but tokens when the call was on record in `keys`, and the full cost of a fresh call. */
  function Reported(run: Run, state: RunState, carried: Cost, keys: set<string>): Cost {
    if Ask(run, state).ProviderFailed? then carried
    else match Prompt(run, state)
      case None => ZERO_COST
      case Some(key) => if key in keys then ReplayCost(Answered(run, key)) else run.answer(key).cost
  }

  /** Guard, de-duplicate and simulate a proposed candidate. */
  function Attempt(run: Run, state: RunState, candidate: Candidate): (Candidate, Outcome)
    requires ValidSpace(run.goal.space)
  {
    match Validated(candidate, run.goal.space, run.read)
    case Refused(_) => (candidate, Errored("GuardRejection", false))
    case Passed(cleaned, _, _) =>
      var tried :=
        if Duplicates(cleaned, state.history)
        then Candidate(MovedAll(run.goal.space, cleaned.params, run.nudges(run.seed, state.stepIdx, run.goal.space, cleaned.params)), Perturb)
        else cleaned;
      (tried, run.simulate(tried.params, state.stepIdx))
  }

  function Graded(state: RunState, candidate: Candidate, outcome: Outcome, cost: Cost): Episode {
    var evaluation := match outcome
      case Measured(result) =>
        Evaluation(BetterThan(result, state.best, state.goal.objective),
                   DeltaVs(result, state.best, state.goal.objective), result.feasible)
      case Errored(_, _) => Evaluation(false, 0.0, false);
    Episode(state.stepIdx, candidate, outcome, evaluation, cost)
  }

  function EpisodeFor(run: Run, state: RunState, proposal: Proposal, cost: Cost): (episode: Episode)
    requires ValidSpace(run.goal.space) && !proposal.NothingLeft?
    ensures episode.idx == state.stepIdx && episode.cost == cost
  {
    match proposal
    case ProviderFailed(kind) => Graded(state, Candidate(map[], Planner), Errored(kind, true), cost)
    case Proposed(candidate) =>
      var (tried, outcome) := Attempt(run, state, candidate);
      Graded(state, tried, outcome, cost)
  }

  /** What is recorded of a measurement: between feasible results the delta is positive exactly on a recorded
      improvement, and is as large as the objective values are apart; with no incumbent it is nothing. */
  lemma {:induction false} RecordedDeltaMeans(state: RunState, candidate: Candidate, result: SimResult, cost: Cost)
    ensures var evaluation := Graded(state, candidate, Measured(result), cost).evaluation;
            && evaluation.feasible == result.feasible
            && (state.best.None? ==> evaluation.improved && evaluation.delta == 0.0)
            && (state.best.Some? ==>
                  var incumbent := state.best.value.result;
                  && (evaluation.improved <==> Beats(result, incumbent, state.goal.objective.direction))
                  && Distance(evaluation.delta, 0.0) == Distance(result.objectiveValue, incumbent.objectiveValue)
                  && (result.feasible && incumbent.feasible ==> (evaluation.delta > 0.0 <==> evaluation.improved)))
  {
    if state.best.Some? && result.feasible && state.best.value.result.feasible {
      DeltaAgreesWithBetterThan(result, state.best.value, state.goal.objective);
    }
  }

  datatype Step = Stop(reason: Reason) | Record(episode: Episode)

  /** One turn of the loop, from the state it keeps, the cost the strategy object last reported and the
      calls on record. */
  function Taken(run: Run, state: RunState, carried: Cost, keys: set<string>): Step
    requires ValidSpace(run.goal.space)
  {
    match HeadReason(run, state)
    case Some(reason) => Stop(reason)
    case None =>
      var proposal := Ask(run, state);
      if proposal.NothingLeft? then Stop(Exhausted)
      else Record(EpisodeFor(run, state, proposal, Reported(run, state, carried, keys)))
  }

  /** One turn of the loop, from the recorded episodes alone. */
  function Next(run: Run, history: seq<Episode>, carried: Cost, keys: set<string>): Step
    requires ValidSpace(run.goal.space)
  {
    Taken(run, StateOf(run, history, Executing), carried, keys)
  }

  lemma {:induction false} TakenIgnoresStatus(run: Run, state: RunState, status: Status, carried: Cost, keys: set<string>)
    requires ValidSpace(run.goal.space)
    ensures Taken(run, state.(status := status), carried, keys) == Taken(run, state, carried, keys)
  {
  }

  /** The state kept after the commit: incumbent, budget and index moved on by one episode. */
  function Kept(state: RunState, episode: Episode): RunState {
    var best := if episode.outcome.Measured? && episode.evaluation.improved
                then Some(Best(episode.idx, episode.candidate, episode.outcome.result)) else state.best;
    state.Advanced(episode, best, Spend(state.budget, episode), Executing)
  }

  /** Keeping the derived fields by one step gives what recomputing them from the episodes gives:
      at every loop head the state is its own rehydration. */
  lemma {:induction false} KeptIsRecomputed(run: Run, history: seq<Episode>, status: Status, carried: Cost, keys: set<string>)
    requires ValidSpace(run.goal.space) && Next(run, history, carried, keys).Record?
    ensures var kept := Kept(StateOf(run, history, status), Next(run, history, carried, keys).episode);
            && kept == StateOf(run, history + [Next(run, history, carried, keys).episode], Executing)
            && Rehydrated(kept) == kept
            && Belongs(kept, run)
  {
    var episode := Next(run, history, carried, keys).episode;
    NextSpends(run, history, carried, keys);
    Snoc(history, episode, run.goal.objective, run.limits);
    BudgetKeepsLimits(run.limits, history + [episode]);
    RehydratedIsStateOf(StateOf(run, history + [episode], Executing), run);
  }

  // ---------------------------------------------------------------- the uninterrupted run

  /** Evaluations and rejections still allowed. */
  function Allowance(run: Run, history: seq<Episode>): int {
    var budget := BudgetOf(run.limits, history);
    budget.maxEvaluations - budget.evaluationsUsed + budget.maxRejections - budget.rejectionsUsed
  }

  lemma {:induction false} SpendingOne(budget: Budget, episode: Episode)
    ensures var after := Spend(budget, episode);
            && after.evaluationsUsed + after.rejectionsUsed == budget.evaluationsUsed + budget.rejectionsUsed + 1
            && after.maxEvaluations == budget.maxEvaluations && after.maxRejections == budget.maxRejections
  {
  }

  lemma {:induction false} NextSpends(run: Run, history: seq<Episode>, carried: Cost, keys: set<string>)
    requires ValidSpace(run.goal.space) && Next(run, history, carried, keys).Record?
    ensures var episode := Next(run, history, carried, keys).episode;
            && episode.idx == NextIndex(history)
            && Allowance(run, history + [episode]) == Allowance(run, history) - 1
            && Allowance(run, history) >= 2
            && NextIndex(history + [episode]) == episode.idx + 1
  {
    var episode := Next(run, history, carried, keys).episode;
    Snoc(history, episode, run.goal.objective, run.limits);
    SpendingOne(BudgetOf(run.limits, history), episode);
  }

  /** The call asked for after `history`. */
  function AskedAfter(run: Run, history: seq<Episode>): set<string> {
    Asked(run, StateOf(run, history, Executing))
  }

  /** The calls asked for on the way from the first `base` episodes to `history`. */
  function AskedSince(run: Run, history: seq<Episode>, base: nat): set<string> {
    if |history| <= base then {}
    else AskedSince(run, history[..|history| - 1], base) + AskedAfter(run, history[..|history| - 1])
  }

  /** All the episodes an uninterrupted worker ends with, and why it stops. */
  function Complete(run: Run, history: seq<Episode>, carried: Cost, keys: set<string>): (seq<Episode>, Reason)
    requires ValidSpace(run.goal.space)
    decreases Allowance(run, history)
  {
    match Next(run, history, carried, keys)
    case Stop(reason) => (history, reason)
    case Record(episode) =>
      NextSpends(run, history, carried, keys);
      Complete(run, history + [episode], episode.cost, keys + AskedAfter(run, history))
  }

  /** The cost the strategy object holds in a process that started with `start` episodes loaded. */
  function Carried(start: nat, history: seq<Episode>): Cost {
    if |history| <= start then ZERO_COST else history[|history| - 1].cost
  }

  // ---------------------------------------------------------------- the loop

  /** A process that loaded `loaded`, when `known` calls were on record, is on its way to the same end. */
  ghost predicate OnTheWay(run: Run, loaded: seq<Episode>, known: set<string>, history: seq<Episode>)
    requires ValidSpace(run.goal.space)
  {
    && loaded <= history
    && Complete(run, history, Carried(|loaded|, history), known + AskedSince(run, history, |loaded|))
    == Complete(run, loaded, ZERO_COST, known)
  }

  /** It has inserted the episodes beyond those loaded, one after another, and nothing else. */
  ghost predicate Inserted(loaded: seq<Episode>, history: seq<Episode>, before: Table, after: Table)
    requires loaded <= history
  {
    && AppendOnly(before, after)
    && after == Appended(before, history[|loaded|..])
    && forall k | k in after :: k in before || k < NextIndex(history)
  }

  /** What a process has done once its history is `history`. */
  ghost predicate Progress(run: Run, loaded: seq<Episode>, known: set<string>, history: seq<Episode>, before: Table, after: Table)
    requires ValidSpace(run.goal.space)
  {
    OnTheWay(run, loaded, known, history) && Inserted(loaded, history, before, after)
  }

  lemma {:induction false} ProgressStarts(run: Run, loaded: seq<Episode>, known: set<string>, table: Table)
    requires ValidSpace(run.goal.space)
    ensures Progress(run, loaded, known, loaded, table, table)
  {
    assert loaded[|loaded|..] == [];
    assert known + {} == known;
  }

  lemma {:induction false} CompleteFromNext(run: Run, history: seq<Episode>, carried: Cost, keys: set<string>)
    requires ValidSpace(run.goal.space) && Next(run, history, carried, keys).Record?
    ensures Complete(run, history, carried, keys)
         == Complete(run, history + [Next(run, history, carried, keys).episode],
                     Next(run, history, carried, keys).episode.cost, keys + AskedAfter(run, history))
  {
    NextSpends(run, history, carried, keys);
  }

  lemma {:induction false} AskedSinceSnoc(run: Run, history: seq<Episode>, episode: Episode, base: nat, known: set<string>)
    requires base <= |history|
    ensures known + AskedSince(run, history + [episode], base) == known + AskedSince(run, history, base) + AskedAfter(run, history)
  {
    assert (history + [episode])[..|history|] == history;
  }

  lemma {:induction false} InsertedSnoc(loaded: seq<Episode>, history: seq<Episode>, before: Table, after: Table, episode: Episode)
    requires loaded <= history && Inserted(loaded, history, before, after)
    requires episode.idx !in after && NextIndex(history + [episode]) >= NextIndex(history)
    requires NextIndex(history + [episode]) > episode.idx
    ensures Inserted(loaded, history + [episode], before, after[episode.idx := episode])
  {
    assert (history + [episode])[|loaded|..] == history[|loaded|..] + [episode];
    assert (history[|loaded|..] + [episode])[..|history| - |loaded|] == history[|loaded|..];
  }

  lemma {:induction false} OnTheWaySnoc(run: Run, loaded: seq<Episode>, known: set<string>, history: seq<Episode>, step: Step)
    requires ValidSpace(run.goal.space) && OnTheWay(run, loaded, known, history)
    requires step == Next(run, history, Carried(|loaded|, history), known + AskedSince(run, history, |loaded|)) && step.Record?
    ensures OnTheWay(run, loaded, known, history + [step.episode])
    ensures Carried(|loaded|, history + [step.episode]) == step.episode.cost
  {
    CompleteFromNext(run, history, Carried(|loaded|, history), known + AskedSince(run, history, |loaded|));
    AskedSinceSnoc(run, history, step.episode, |loaded|, known);
  }

  lemma {:induction false} ProgressContinues(
      run: Run, loaded: seq<Episode>, known: set<string>, history: seq<Episode>, before: Table, after: Table, step: Step)
    requires ValidSpace(run.goal.space) && Progress(run, loaded, known, history, before, after)
    requires step == Next(run, history, Carried(|loaded|, history), known + AskedSince(run, history, |loaded|))
    requires step.Record? && step.episode.idx !in after
    ensures Progress(run, loaded, known, history + [step.episode], before, after[step.episode.idx := step.episode])
    ensures Carried(|loaded|, history + [step.episode]) == step.episode.cost
  {
    NextSpends(run, history, Carried(|loaded|, history), known + AskedSince(run, history, |loaded|));
    OnTheWaySnoc(run, loaded, known, history, step);
    InsertedSnoc(loaded, history, before, after, step.episode);
  }

  /** A row is as it was, or as the last snapshot of a run still executing left it. */
  ghost predicate Touched(run: Run, before: RunRow, after: RunRow) {
    || after == before
    || exists saved: RunState :: after == Stamped(before, saved) && saved.status == Executing && Belongs(saved, run)
  }

  function Survived(writes: Option<nat>): Option<nat>
    requires writes != Some(0)
  {
    if writes.Some? then Some(writes.value - 1) else None
  }

  lemma {:induction false} StampedAgain(run: Run, first: RunRow, row: RunRow, saved: RunState)
    requires Touched(run, first, row)
    ensures Stamped(row, saved) == Stamped(first, saved)
    ensures saved.status == Executing && Belongs(saved, run) ==> Touched(run, first, Stamped(row, saved))
  {
    if row != first {
      var earlier: RunState :| row == Stamped(first, earlier) && earlier.status == Executing && Belongs(earlier, run);
    }
  }

  /** Every call on record is the model's answer to its prompt. */
  ghost predicate TrueRecord(run: Run, calls: Calls) {
    forall key | key in calls :: calls[key] == Answered(run, key)
  }

  /** The call a turn makes to the model itself, to be recorded. */
  function NewCall(run: Run, state: RunState, keys: set<string>): Option<string> {
    if HeadReason(run, state).Some? || Asked(run, state) <= keys then None else Prompt(run, state)
  }

  /** What holds at every loop head: the state is its own rehydration, the progress is on record, and so
      are the calls behind it. */
  ghost predicate AtHead(run: Run, loaded: seq<Episode>, known: set<string>, state: RunState, lastCost: Cost,
                         before: Table, rows: Table, keys: set<string>)
    requires ValidSpace(run.goal.space)
  {
    && state == StateOf(run, state.history, state.status)
    && Belongs(state, run)
    && Progress(run, loaded, known, state.history, before, rows)
    && lastCost == Carried(|loaded|, state.history)
    && keys == known + AskedSince(run, state.history, |loaded|)
  }

  lemma {:induction false} StartsAtHead(run: Run, initial: RunState, rows: Table, keys: set<string>)
    requires ValidRun(run) && Belongs(initial, run)
    ensures AtHead(run, initial.history, keys, Rehydrated(initial), ZERO_COST, rows, rows, keys)
  {
    RehydratedIsStateOf(initial, run);
    BudgetKeepsLimits(initial.budget, initial.history);
    ProgressStarts(run, initial.history, keys, rows);
  }

  lemma {:induction false} TurnFromHead(
      run: Run, loaded: seq<Episode>, known: set<string>, state: RunState, lastCost: Cost, before: Table, rows: Table,
      keys: set<string>)
    requires ValidRun(run) && AtHead(run, loaded, known, state, lastCost, before, rows, keys)
    ensures var step := Taken(run, state, lastCost, keys);
            Led(run, loaded, known, state, before, rows,
                keys + if step.Record? then AskedAfter(run, state.history) else {}, step)
  {
    TakenIgnoresStatus(run, state, Executing, lastCost, keys);
    if Taken(run, state, lastCost, keys).Record? {
      NextSpends(run, state.history, lastCost, keys);
      if Taken(run, state, lastCost, keys).episode.idx !in rows {
        ProgressContinues(run, loaded, known, state.history, before, rows, Taken(run, state, lastCost, keys));
        KeptIsRecomputed(run, state.history, state.status, lastCost, keys);
        AskedSinceSnoc(run, state.history, Taken(run, state, lastCost, keys).episode, |loaded|, known);
      }
    }
  }

  /** The calls on record at a point of a process: those behind its history, and perhaps the next one. */
  ghost predicate CallsBehind(run: Run, loaded: seq<Episode>, known: set<string>, history: seq<Episode>, calls: Calls) {
    && TrueRecord(run, calls)
    && known + AskedSince(run, history, |loaded|) <= calls.Keys
    && calls.Keys <= known + AskedSince(run, history, |loaded|) + AskedAfter(run, history)
  }

  lemma {:induction false} NotedIsTrue(run: Run, calls: Calls, key: string)
    requires TrueRecord(run, calls)
    ensures TrueRecord(run, Noted(calls, key, Answered(run, key)))
    ensures Noted(calls, key, Answered(run, key)).Keys == calls.Keys + {key}
  {
  }

  /** What a process leaves in its run's episodes and calls, at any instant. */
  ghost predicate Traces(run: Run, loaded: seq<Episode>, known: set<string>, state: RunState, before: Table, rows: Table,
                         calls: Calls)
    requires ValidSpace(run.goal.space)
  {
    && state == StateOf(run, state.history, state.status) && Belongs(state, run)
    && Progress(run, loaded, known, state.history, before, rows)
    && CallsBehind(run, loaded, known, state.history, calls)
  }

  lemma {:induction false} HeadCalls(
      run: Run, loaded: seq<Episode>, known: set<string>, state: RunState, lastCost: Cost, before: Table, rows: Table,
      calls: Calls, called: Option<string>)
    requires ValidRun(run) && AtHead(run, loaded, known, state, lastCost, before, rows, calls.Keys)
    requires TrueRecord(run, calls) && called == NewCall(run, state, calls.Keys)
    ensures CallsBehind(run, loaded, known, state.history, calls)
    ensures called.Some? ==>
              var noted := Noted(calls, called.value, Answered(run, called.value));
              && CallsBehind(run, loaded, known, state.history, noted)
              && noted.Keys == calls.Keys + AskedAfter(run, state.history)
    ensures called.None? && Taken(run, state, lastCost, calls.Keys).Record? ==>
              calls.Keys == calls.Keys + AskedAfter(run, state.history)
  {
    if called.Some? {
      NotedIsTrue(run, calls, called.value);
    }
  }

  /** Where a turn taken at a loop head leads, `keys` being the calls on record once it is taken. */
  ghost predicate Led(run: Run, loaded: seq<Episode>, known: set<string>, state: RunState, before: Table, rows: Table,
                      keys: set<string>, step: Step)
    requires ValidSpace(run.goal.space)
  {
    match step
    case Stop(reason) => reason != Error && (state.history, reason) == Complete(run, loaded, ZERO_COST, known)
    case Record(episode) =>
      && episode.idx == NextIndex(state.history)
      && (episode.idx in rows ==> episode.idx in before)
      && 0 <= Allowance(run, state.history + [episode]) < Allowance(run, state.history)
      && (episode.idx !in rows ==>
            AtHead(run, loaded, known, Kept(state, episode), episode.cost, before, rows[episode.idx := episode], keys))
  }

  lemma {:induction false} LedTraces(
      run: Run, loaded: seq<Episode>, known: set<string>, state: RunState, before: Table, rows: Table, calls: Calls,
      step: Step, next: RunState)
    requires ValidRun(run) && step.Record? && Led(run, loaded, known, state, before, rows, calls.Keys, step)
    requires TrueRecord(run, calls)
    requires next != state ==> next == Kept(state, step.episode) && step.episode.idx !in rows
    ensures next != state ==>
              && Traces(run, loaded, known, next, before, rows[step.episode.idx := step.episode], calls)
              && |next.history| == |state.history| + 1
              && 0 <= Allowance(run, next.history) < Allowance(run, state.history)
              && AtHead(run, loaded, known, next, step.episode.cost, before, rows[step.episode.idx := step.episode], calls.Keys)
    ensures Kept(state, step.episode) != state
  {
    assert |Kept(state, step.episode).history| == |state.history| + 1;
  }
}
