/** The loop itself: it asks, simulates, commits and saves through the repository, and may die before
    any write. */
module Runner {
  import opened Domain
  import opened History
  import opened Guard
  import opened Persistence
  import opened Loop

  /** One turn up to the commit point: test the exits, ask, guard, de-duplicate, simulate and grade. */
  method Turn(run: Run, state: RunState, lastCost: Cost, repo: Repository) returns (step: Step, called: Option<string>)
    requires ValidRun(run) && Belongs(state, run) && TrueRecord(run, repo.Recorded(run.runId))
    ensures step == Taken(run, state, lastCost, repo.Recorded(run.runId).Keys)
    ensures called == NewCall(run, state, repo.Recorded(run.runId).Keys)
  {
    called := None;
    if state.budget.Exhausted() {
      return Stop(BudgetSpent), called;
    }
    if state.budget.RejectionsExceeded() {
      return Stop(Rejections), called;
    }
    if GoalSatisfied(state.best, run.goal) {
      return Stop(Success), called;
    }
    if run.stuck(state.history, run.goal) {
      return Stop(Stagnation), called;
    }
    var proposal, cost := Ask(run, state), lastCost;
    if !proposal.ProviderFailed? {
      cost, called := Charge(run, Prompt(run, state), repo);
    }
    match proposal
    case NothingLeft =>
      step := Stop(Exhausted);
    case ProviderFailed(kind) =>
      step := Record(Graded(state, Candidate(map[], Planner), Errored(kind, true), cost));
    case Proposed(candidate) =>
      var guarded := Validate(candidate, run.goal.space, run.read);
      match guarded {
        case Refused(_) =>
          step := Record(Graded(state, candidate, Errored("GuardRejection", false), cost));
        case Passed(cleaned, _, _) =>
          var tried := cleaned;
          var duplicate := IsDuplicate(cleaned, state.history);
          if duplicate {
            tried := PerturbCandidate(cleaned, run.goal.space,
                                      run.nudges(run.seed, state.stepIdx, run.goal.space, cleaned.params));
          }
          step := Record(Graded(state, tried, run.simulate(tried.params, state.stepIdx), cost));
      }
  }

  /** What a successful ask costs, and the call it made to the model itself, if it made one. */
  method Charge(run: Run, prompt: Option<string>, repo: Repository) returns (cost: Cost, called: Option<string>)
    requires TrueRecord(run, repo.Recorded(run.runId))
    ensures match prompt
            case None => cost == ZERO_COST && called == None
            case Some(key) =>
              if key in repo.Recorded(run.runId) then cost == ReplayCost(Answered(run, key)) && called == None
              else cost == run.answer(key).cost && called == prompt
  {
    match prompt {
      case None =>
        return ZERO_COST, None;
      case Some(key) =>
        var cached := repo.LoadCall(run.runId, key);
        if cached.Some? {
          return ReplayCost(cached.value), None;
        }
        return run.answer(key).cost, prompt;
    }
  }

  /** The bookkeeping after the commit. */
  method Advance(state: RunState, episode: Episode) returns (next: RunState)
    ensures next == Kept(state, episode)
  {
    var best, budget := state.best, state.budget;
    match episode.outcome {
      case Measured(result) =>
        budget := budget.WithEvaluation(result.wallTime, episode.cost);
        if episode.evaluation.improved {
          best := Some(Best(episode.idx, episode.candidate, result));
        }
      case Errored(_, _) =>
        budget := budget.WithRejection(episode.cost);
    }
    next := state.Advanced(episode, best, budget, Executing);
  }

  /** No row of any other run has changed. */
  twostate predicate OthersKept(repo: Repository, runId: RunId)
    reads repo
  {
    && repo.runs - {runId} == old(repo.runs) - {runId}
    && repo.episodes - {runId} == old(repo.episodes) - {runId}
    && repo.calls - {runId} == old(repo.calls) - {runId}
  }

  datatype Pace = Died | Stopped(reason: Reason) | WentOn

  /** The commit point and what follows it: insert the episode, move the state on, save the snapshot. */
  method Commit(run: Run, state: RunState, episode: Episode, repo: Repository, writes: Option<nat>)
    returns (pace: Pace, next: RunState, left: Option<nat>)
    requires state.runId == run.runId && repo.Row(run.runId).Some?
    modifies repo`runs, repo`episodes
    ensures left.Some? <==> writes.Some?
    ensures pace.Died? ==> writes.Some?
    ensures pace.Stopped? ==> pace.reason == Error && episode.idx in old(repo.Rows(run.runId))
    ensures pace.WentOn? ==> next == Kept(state, episode)
    ensures next == state || (next == Kept(state, episode) && episode.idx !in old(repo.Rows(run.runId)))
    ensures repo.Rows(run.runId) == if next == state then old(repo.Rows(run.runId)) else old(repo.Rows(run.runId))[episode.idx := episode]
    ensures repo.Row(run.runId) == if pace.WentOn? then Some(Stamped(old(repo.Row(run.runId)).value, next)) else old(repo.Row(run.runId))
    ensures OthersKept(repo, run.runId)
  {
    pace, next, left := Died, state, writes;
    if left == Some(0) {
      return;
    }
    left := Survived(left);
    var inserted := repo.AppendEpisode(state.runId, episode);
    if !inserted {
      pace := Stopped(Error);
      return;
    }
    next := Advance(state, episode);
    if left == Some(0) {
      return;
    }
    left := Survived(left);
    repo.SaveRun(next, run.simulator, run.strategy, None);
    pace := WentOn;
  }

  /** The turn at a loop head, up to the commit: a stop is the end of the uninterrupted continuation, and
      an episode not yet in the table leads to the next loop head.  A call made to the model is on record
      before the turn goes on. */
  method TurnAtHead(run: Run, state: RunState, lastCost: Cost, repo: Repository, writes: Option<nat>,
                    ghost loaded: seq<Episode>, ghost known: set<string>, ghost before: Table, ghost rows: Table)
    returns (step: Step, survived: bool, left: Option<nat>)
    requires ValidRun(run) && TrueRecord(run, repo.Recorded(run.runId))
    requires AtHead(run, loaded, known, state, lastCost, before, rows, repo.Recorded(run.runId).Keys)
    modifies repo`calls
    ensures left.Some? <==> writes.Some?
    ensures !survived ==> writes.Some?
    ensures CallsBehind(run, loaded, known, state.history, repo.Recorded(run.runId))
    ensures survived ==> Led(run, loaded, known, state, before, rows, repo.Recorded(run.runId).Keys, step)
    ensures repo.calls - {run.runId} == old(repo.calls) - {run.runId}
  {
    left, survived := writes, true;
    var called;
    step, called := Turn(run, state, lastCost, repo);
    ghost var calls := repo.Recorded(run.runId);
    TurnFromHead(run, loaded, known, state, lastCost, before, rows, calls.Keys);
    HeadCalls(run, loaded, known, state, lastCost, before, rows, calls, called);
    if called.Some? {
      if left == Some(0) {
        survived := false;
        return;
      }
      left := Survived(left);
      repo.RecordCall(run.runId, called.value, Answered(run, called.value));
    }
    assert step.Record? ==> repo.Recorded(run.runId).Keys == calls.Keys + AskedAfter(run, state.history);
  }

  /** One pass through the loop.  `writes` is how many database writes the process survives; None means
      it is never killed. */
  method TakeTurn(run: Run, state: RunState, lastCost: Cost, repo: Repository, writes: Option<nat>,
                  ghost loaded: seq<Episode>, ghost known: set<string>, ghost before: Table)
    returns (pace: Pace, next: RunState, cost: Cost, left: Option<nat>)
    requires ValidRun(run) && repo.Row(run.runId).Some?
    requires TrueRecord(run, repo.Recorded(run.runId))
    requires AtHead(run, loaded, known, state, lastCost, before, repo.Rows(run.runId), repo.Recorded(run.runId).Keys)
    modifies repo`runs, repo`episodes, repo`calls
    ensures left.Some? <==> writes.Some?
    ensures pace.Died? ==> writes.Some?
    ensures Traces(run, loaded, known, next, before, repo.Rows(run.runId), repo.Recorded(run.runId))
    ensures repo.Row(run.runId) == if pace.WentOn? then Some(Stamped(old(repo.Row(run.runId)).value, next)) else old(repo.Row(run.runId))
    ensures pace.WentOn? ==>
              && next.status == Executing
              && |next.history| == |state.history| + 1
              && 0 <= Allowance(run, next.history) < Allowance(run, state.history)
              && AtHead(run, loaded, known, next, cost, before, repo.Rows(run.runId), repo.Recorded(run.runId).Keys)
    ensures pace.Stopped? ==>
              && next == state
              && (pace.reason == Error ==> NextIndex(state.history) in before)
              && (pace.reason != Error ==> (state.history, pace.reason) == Complete(run, loaded, ZERO_COST, known))
    ensures OthersKept(repo, run.runId)
  {
    ghost var rows := repo.Rows(run.runId);
    pace, next, cost := Died, state, lastCost;
    var step, survived, remaining := TurnAtHead(run, state, lastCost, repo, writes, loaded, known, before, rows);
    left := remaining;
    if !survived {
      return;
    }
    if step.Stop? {
      pace := Stopped(step.reason);
      return;
    }
    cost := step.episode.cost;
    pace, next, left := Commit(run, state, step.episode, repo, left);
    LedTraces(run, loaded, known, state, before, rows, repo.Recorded(run.runId), step, next);
  }

  /** The turns of the loop, until an exit fires, a collision is detected, or the process dies. */
  method RunTurns(run: Run, initial: RunState, repo: Repository, writes: Option<nat>)
    returns (crashed: bool, state: RunState, reason: Reason, episodesRun: nat, left: Option<nat>)
    requires ValidRun(run) && Belongs(initial, run) && repo.Row(run.runId).Some?
    requires TrueRecord(run, repo.Recorded(run.runId))
    modifies repo`runs, repo`episodes, repo`calls
    ensures left.Some? <==> writes.Some?
    ensures crashed ==> writes.Some?
    ensures Traces(run, initial.history, old(repo.Recorded(run.runId).Keys), state, old(repo.Rows(run.runId)),
                   repo.Rows(run.runId), repo.Recorded(run.runId))
    ensures repo.Row(run.runId).Some? && Touched(run, old(repo.Row(run.runId)).value, repo.Row(run.runId).value)
    ensures !crashed ==>
              && episodesRun == |state.history| - |initial.history|
              && (reason == Error ==> NextIndex(state.history) in old(repo.Rows(run.runId)))
              && (reason != Error ==>
                    (state.history, reason) == Complete(run, initial.history, ZERO_COST, old(repo.Recorded(run.runId).Keys)))
    ensures OthersKept(repo, run.runId)
  {
    state := Rehydrate(initial);
    crashed, episodesRun, reason, left := false, 0, Exhausted, writes;
    var lastCost := ZERO_COST;
    ghost var loaded, known := initial.history, repo.Recorded(run.runId).Keys;
    ghost var before, row := repo.Rows(run.runId), repo.Row(run.runId).value;
    StartsAtHead(run, initial, before, known);

    while true
      invariant repo.Row(run.runId).Some? && Touched(run, row, repo.Row(run.runId).value)
      invariant AtHead(run, loaded, known, state, lastCost, before, repo.Rows(run.runId), repo.Recorded(run.runId).Keys)
      invariant TrueRecord(run, repo.Recorded(run.runId))
      invariant episodesRun == |state.history| - |loaded|
      invariant left.Some? <==> writes.Some?
      invariant OthersKept(repo, run.runId)
      decreases Allowance(run, state.history)
    {
      ghost var now := repo.Row(run.runId).value;
      var pace, next, cost, remaining := TakeTurn(run, state, lastCost, repo, left, loaded, known, before);
      state, lastCost, left := next, cost, remaining;
      match pace {
        case Died =>
          crashed := true;
          return;
        case Stopped(why) =>
          reason := why;
          return;
        case WentOn =>
          StampedAgain(run, row, now, state);
          episodesRun := episodesRun + 1;
      }
    }
  }

  /** The loop, then the final status and the last snapshot. */
  method RunLoop(run: Run, initial: RunState, repo: Repository, writes: Option<nat>)
    returns (crashed: bool, state: RunState, reason: Reason, episodesRun: nat)
    requires ValidRun(run) && Belongs(initial, run) && repo.Row(run.runId).Some?
    requires TrueRecord(run, repo.Recorded(run.runId))
    modifies repo`runs, repo`episodes, repo`calls
    ensures Progress(run, initial.history, old(repo.Recorded(run.runId).Keys), state.history,
                     old(repo.Rows(run.runId)), repo.Rows(run.runId))
    ensures CallsBehind(run, initial.history, old(repo.Recorded(run.runId).Keys), state.history, repo.Recorded(run.runId))
    ensures !crashed ==>
              && episodesRun == |state.history| - |initial.history|
              && state == StateOf(run, state.history, if reason == Error then Failed else Done)
              && repo.Row(run.runId) == Some(Stamped(old(repo.Row(run.runId)).value, state))
              && (reason == Error ==> NextIndex(state.history) in old(repo.Rows(run.runId)))
              && (reason != Error ==>
                    (state.history, reason) == Complete(run, initial.history, ZERO_COST, old(repo.Recorded(run.runId).Keys)))
    ensures repo.Row(run.runId).Some?
    ensures crashed ==> writes.Some? && Touched(run, old(repo.Row(run.runId)).value, repo.Row(run.runId).value)
    ensures OthersKept(repo, run.runId)
  {
    ghost var row := repo.Row(run.runId).value;
    var left;
    crashed, state, reason, episodesRun, left := RunTurns(run, initial, repo, writes);
    if crashed {
      return;
    }
    if left == Some(0) {
      crashed := true;
      return;
    }
    state := state.(status := if reason == Error then Failed else Done);
    StampedAgain(run, row, repo.Row(run.runId).value, state);
    repo.SaveRun(state, run.simulator, run.strategy, None);
  }
}
