/** An input for each promise that is kept only under a condition. */
module Witnesses {
  import opened Domain
  import opened History
  import opened Guard
  import opened Persistence
  import opened Loop
  import opened Durability
  import opened Stagnation
  import opened Metrics
  import opened Grid

  // ---------------------------------------------------------------- runs to vary

  const UNIT: Space := [FloatParam("x", 0.0, 1.0)]

  function At(x: real): Candidate {
    Candidate(map["x" := Float(x)], Planner)
  }

  const ANSWER := Measured(SimResult(1.0, [], true, 0.0))

  /** One call, nothing else. */
  const CALL := Cost(1, 0, 0, 0.0, 0)

  function Limits(maxEvaluations: nat, maxRejections: nat): Budget {
    Budget(maxEvaluations, 0, 1.0, 0.0, 1.0, 0.0, maxRejections, 0)
  }

  /** A run on the unit interval, every point of which scores the same, with a strategy that goes by the index. */
  function Example(limits: Budget, target: Option<real>, proposals: nat -> Proposal, prompts: nat -> Option<string>, cost: Cost): Run {
    Run(0, Goal(Objective(Minimise, target), UNIT), 0, limits, "simulator", "strategy",
        (g: Goal, n: nat, h: seq<Episode>, s: int, i: nat) => proposals(i),
        (g: Goal, n: nat, h: seq<Episode>, s: int, i: nat) => prompts(i),
        (key: string) => Answer([], cost),
        (p: Params, i: nat) => ANSWER,
        (s: int, i: nat, space: Space, p: Params) => (k: nat) => Nudge(0.1, true, 0),
        (h: seq<Episode>, g: Goal) => false,
        (text: string) => NotNumeric)
  }

  lemma {:induction false} PointPasses(x: real, read: Reader)
    requires 0.0 <= x <= 1.0
    ensures ValidSpace(UNIT) && Conforms(At(x).params, UNIT)
    ensures Validated(At(x), UNIT, read) == Passed(At(x), [], [])
  {
    assert UNIT[0].name == "x" && Names(UNIT) == {"x"};
    ConformingPassesUnchanged(At(x), UNIT, read);
  }

  /** A point not tried before is simulated as proposed. */
  lemma {:induction false} NewPointIsSimulated(run: Run, history: seq<Episode>, x: real, carried: Cost, keys: set<string>)
    requires run.goal.space == UNIT && 0.0 <= x <= 1.0 && !Duplicates(At(x), history)
    requires HeadReason(run, StateOf(run, history, Executing)).None? && AskAt(run, history) == Proposed(At(x))
    ensures ValidSpace(UNIT)
    ensures var state := StateOf(run, history, Executing);
            Next(run, history, carried, keys) ==
            Record(Graded(state, At(x), run.simulate(At(x).params, state.stepIdx), Reported(run, state, carried, keys)))
  {
    PointPasses(x, run.read);
  }

  /** The first episode of a run that starts at `x`. */
  function First(x: real, cost: Cost): Episode {
    Episode(0, At(x), ANSWER, Evaluation(true, 0.0, true), cost)
  }

  /** Any of these runs that starts with a point makes it the first episode, charged for the call if there is one. */
  lemma {:induction false} FirstTurn(run: Run, x: real)
    requires run.goal.space == UNIT && 0.0 <= x <= 1.0 && AskAt(run, []) == Proposed(At(x))
    requires HeadReason(run, StateOf(run, [], Executing)).None? && run.simulate(At(x).params, 0) == ANSWER
    ensures ValidSpace(UNIT)
    ensures var cost := if PromptAt(run, []).Some? then run.answer(PromptAt(run, []).value).cost else ZERO_COST;
            && Next(run, [], ZERO_COST, {}) == Record(First(x, cost))
            && Complete(run, [], ZERO_COST, {}) == Complete(run, [First(x, cost)], cost, AskedAfter(run, []))
            && NextIndex([First(x, cost)]) == 1
            && BestOf([First(x, cost)], run.goal.objective) == Some(Best(0, At(x), ANSWER.result))
            && BudgetOf(run.limits, [First(x, cost)]) == Spend(run.limits.Unspent(), First(x, cost))
  {
    NewPointIsSimulated(run, [], x, ZERO_COST, {});
    CompleteFromNext(run, [], ZERO_COST, {});
    var first := Next(run, [], ZERO_COST, {}).episode;
    assert [] + [first] == [first] && {} + AskedAfter(run, []) == AskedAfter(run, []);
    Snoc([], first, run.goal.objective, run.limits);
  }

  // ---------------------------------------------------------------- resuming

  /** The first proposal comes of a call; the second call fails, and was never on record. */
  function FailingRun(): Run {
    Example(Limits(2, 1), None, i => if i == 0 then Proposed(At(0.5)) else ProviderFailed("LLMOutputError"),
            i => if i == 0 then Some("first") else Some("second"), CALL)
  }

  function FailedEpisode(): Episode {
    Episode(1, Candidate(map[], Planner), Errored("LLMOutputError", true), Evaluation(false, 0.0, false), CALL)
  }

  lemma {:induction false} FailingRunUninterrupted(run: Run)
    requires run == FailingRun()
    ensures ValidSpace(run.goal.space) && Uninterrupted(run) == ([First(0.5, CALL), FailedEpisode()], Rejections)
    ensures AskAt(run, []).Proposed? && PromptAt(run, []) == Some("first")
    ensures AskAt(run, [First(0.5, CALL)]).ProviderFailed? && PromptAt(run, [First(0.5, CALL)]) == Some("second")
    ensures AskedBy(run, []) == {} && AskedBy(run, [First(0.5, CALL)]) == {"first"}
  {
    var first, second := First(0.5, CALL), FailedEpisode();
    FirstTurn(run, 0.5);
    assert AskedAfter(run, []) == {"first"} && AskedBy(run, []) == {};
    AskedSinceSnoc(run, [], first, 0, {});
    assert [] + [first] == [first];
    assert Next(run, [first], CALL, {"first"}) == Record(second);
    CompleteFromNext(run, [first], CALL, {"first"});
    assert [first] + [second] == [first, second];
    Snoc([first], second, run.goal.objective, run.limits);
    assert Next(run, [first, second], CALL, {"first"} + AskedAfter(run, [first])) == Stop(Rejections);
  }

  lemma {:induction false} FailingRunLoses(run: Run)
    requires run == FailingRun()
    ensures ValidSpace(run.goal.space) && |Uninterrupted(run).0| == 2
    ensures LosesCarry(run, 1) && LosesCharge(run, 0)
    ensures PromptAt(run, Uninterrupted(run).0[..1]) == Some("second") && "second" !in AskedBy(run, Uninterrupted(run).0[..1])
  {
    FailingRunUninterrupted(run);
    assert Uninterrupted(run).0[..0] == [] && Uninterrupted(run).0[..1] == [First(0.5, CALL)];
    assert run.answer("first").cost.calls == 1 && ReplayCost(Answered(run, "first")).calls == 0;
  }

  lemma {:induction false} LosingShows(run: Run)
    requires ValidSpace(run.goal.space) && |Uninterrupted(run).0| == 2 && LosesCarry(run, 1) && LosesCharge(run, 0)
    ensures Resumed(run, 1, false) != Uninterrupted(run)
    ensures Resumed(run, 0, true) != Uninterrupted(run)
  {
    ResumesAstray(run, 1, false);
    ResumesAstray(run, 0, true);
  }

  /** There is a run, whose failed call was never on record, for which dying after the first episode shows, and
      so does dying between recording its call and committing it. */
  lemma {:induction false} ResumingShows() returns (run: Run)
    ensures ValidSpace(run.goal.space) && |Uninterrupted(run).0| == 2
    ensures PromptAt(run, Uninterrupted(run).0[..1]).Some?
    ensures PromptAt(run, Uninterrupted(run).0[..1]).value !in AskedBy(run, Uninterrupted(run).0[..1])
    ensures Resumed(run, 1, false) != Uninterrupted(run)
    ensures Resumed(run, 0, true) != Uninterrupted(run)
  {
    run := FailingRun();
    FailingRunLoses(run);
    LosingShows(run);
  }

  // ---------------------------------------------------------------- the summary

  /** One call and one outage count as two model calls, both accepted at the first attempt, and one of them a
      schema failure as well. */
  lemma {:induction false} OutageCountsAsCall(run: Run)
    requires run == FailingRun()
    ensures ValidSpace(run.goal.space)
    ensures var history := Uninterrupted(run).0;
            && CountWhere(history, Costing(CallMade())) == 2 == CountWhere(history, Costing(FirstTry()))
            && CountWhere(history, SchemaFailure()) == 1
            && FreshCalls(run, CallMade(), history) == 1
  {
    FailingRunUninterrupted(run);
    var first, history := First(0.5, CALL), Uninterrupted(run).0;
    assert history[..1] == [first] && [first][..0] == [];
    CountOfTwo(history, Costing(CallMade()));
    CountOfTwo(history, Costing(FirstTry()));
    CountOfTwo(history, SchemaFailure());
    assert FreshAt(run, CallMade(), []) && !FreshAt(run, CallMade(), [first]);
    assert FreshCalls(run, CallMade(), [first]) == FreshCalls(run, CallMade(), []) + 1;
  }

  lemma {:induction false} CountOfTwo(history: seq<Episode>, p: Episode -> bool)
    requires |history| == 2
    ensures CountWhere(history, p) == (if p(history[0]) then 1 else 0) + if p(history[1]) then 1 else 0
  {
    assert history[..1][..0] == [];
    assert CountWhere(history[..1], p) == CountWhere([], p) + if p(history[0]) then 1 else 0;
  }

  // ---------------------------------------------------------------- the derived reason

  /** Two results alike, and a detector that looks at the last: stopped for stagnation. */
  function Stuck(): Run {
    Example(Limits(3, 1), None, i => if i == 0 then Proposed(At(0.5)) else Proposed(At(0.25)), i => None, ZERO_COST).(
      stuck := (h: seq<Episode>, g: Goal) => NoImprovement(1, h))
  }

  function SecondEpisode(): Episode {
    Episode(1, At(0.25), ANSWER, Evaluation(false, 0.0, true), ZERO_COST)
  }

  lemma {:induction false} FirstImproves(first: Episode)
    requires first.outcome.Measured? && first.evaluation.improved
    ensures Evaluated([first]) == [first] && !NoImprovement(1, []) && !NoImprovement(1, [first])
  {
    assert [first][..0] == [] && Evaluated([]) == [];
    assert Evaluated([first])[0].evaluation.improved;
  }

  lemma {:induction false} SecondDoesNot(first: Episode, second: Episode)
    requires first.outcome.Measured? && second.outcome.Measured? && first.evaluation.improved && !second.evaluation.improved
    ensures NoImprovement(1, [first, second])
  {
    FirstImproves(first);
    assert [first, second][..1] == [first];
  }

  lemma {:induction false} StuckUninterrupted(run: Run)
    requires run == Stuck()
    ensures ValidSpace(run.goal.space) && Uninterrupted(run) == ([First(0.5, ZERO_COST), SecondEpisode()], Stagnation)
  {
    var first, second := First(0.5, ZERO_COST), SecondEpisode();
    FirstImproves(first);
    FirstTurn(run, 0.5);
    assert AskedAfter(run, []) == {};
    assert !SameValue(At(0.25).params["x"], first.candidate.params["x"], TOLERANCE);
    NewPointIsSimulated(run, [first], 0.25, ZERO_COST, {});
    assert Next(run, [first], ZERO_COST, {}) == Record(second);
    CompleteFromNext(run, [first], ZERO_COST, {});
    assert [first] + [second] == [first, second];
    Snoc([first], second, run.goal.objective, run.limits);
    SecondDoesNot(first, second);
    assert Next(run, [first, second], ZERO_COST, {} + AskedAfter(run, [first])) == Stop(Stagnation);
  }

  /** Stagnation is read back as a strategy that ran dry. */
  lemma {:induction false} StagnationReadsAsExhaustion(run: Run, stored: StoredRun)
    requires run == Stuck() && stored.state == StateOf(run, [First(0.5, ZERO_COST), SecondEpisode()], Done)
    ensures ValidSpace(run.goal.space)
    ensures Uninterrupted(run) == (stored.state.history, Stagnation) && DeriveTermination(stored) == Some(Exhausted)
  {
    var first, second := First(0.5, ZERO_COST), SecondEpisode();
    StuckUninterrupted(run);
    Snoc([], first, run.goal.objective, run.limits);
    Snoc([first], second, run.goal.objective, run.limits);
    assert [] + [first] == [first] && [first] + [second] == [first, second];
  }

  /** A strategy that runs dry short of the target. */
  function Short(): Run {
    Example(Limits(2, 1), Some(0.0), i => if i == 0 then Proposed(At(0.5)) else NothingLeft, i => None, ZERO_COST)
  }

  lemma {:induction false} ShortState(run: Run)
    requires run == Short()
    ensures ValidSpace(run.goal.space)
    ensures var state := StateOf(run, [First(0.5, ZERO_COST)], Done);
            && state.stepIdx == 1 && state.best == Some(Best(0, At(0.5), ANSWER.result))
            && !state.budget.Exhausted() && !state.budget.RejectionsExceeded()
    ensures Complete(run, [], ZERO_COST, {}) == Complete(run, [First(0.5, ZERO_COST)], ZERO_COST, {})
  {
    FirstTurn(run, 0.5);
    assert AskedAfter(run, []) == {};
  }

  /** It is read back as a success. */
  lemma {:induction false} ExhaustionReadsAsSuccess(run: Run, stored: StoredRun)
    requires run == Short() && stored.state == StateOf(run, [First(0.5, ZERO_COST)], Done)
    ensures ValidSpace(run.goal.space)
    ensures Uninterrupted(run) == (stored.state.history, Exhausted) && DeriveTermination(stored) == Some(Success)
  {
    ShortState(run);
    TakenIgnoresStatus(run, StateOf(run, [First(0.5, ZERO_COST)], Executing), Done, ZERO_COST, {});
    assert Taken(run, stored.state, ZERO_COST, {}) == Stop(Exhausted);
    assert Next(run, [First(0.5, ZERO_COST)], ZERO_COST, {}) == Stop(Exhausted);
  }

  /** A proposal the guard refuses, charged with the last euro and the last rejection.  Only a strategy from
      outside the repository charges euros. */
  function Spent(): Run {
    Example(Limits(1, 1), None, i => Proposed(Candidate(map[], Planner)), i => Some("prompt"), Cost(1, 0, 0, 1.0, 0))
  }

  function Refusal(): Episode {
    Episode(0, Candidate(map[], Planner), Errored("GuardRejection", false), Evaluation(false, 0.0, false), Cost(1, 0, 0, 1.0, 0))
  }

  /** Stopped on the budget, it is read back as stopped on the rejections. */
  lemma {:induction false} BudgetReadsAsRejections(run: Run, stored: StoredRun)
    requires run == Spent() && stored.state == StateOf(run, [Refusal()], Done)
    ensures ValidSpace(run.goal.space)
    ensures Uninterrupted(run) == (stored.state.history, BudgetSpent) && DeriveTermination(stored) == Some(Rejections)
  {
    PointPasses(0.5, run.read);
    assert Names(UNIT) == {"x"};
    assert Next(run, [], ZERO_COST, {}) == Record(Refusal());
    CompleteFromNext(run, [], ZERO_COST, {});
    assert [] + [Refusal()] == [Refusal()];
    Snoc([], Refusal(), run.goal.objective, run.limits);
    assert Next(run, [Refusal()], Refusal().cost, {} + AskedAfter(run, [])) == Stop(BudgetSpent);
  }

  // ---------------------------------------------------------------- perturbation

  /** A strategy that proposes the upper bound twice, and draws that step up. */
  function Repeating(): Run {
    Example(Limits(2, 1), None, i => Proposed(At(1.0)), i => None, ZERO_COST)
  }

  lemma {:induction false} BoundStays(nudges: nat -> Nudge)
    requires nudges(0) == Nudge(0.1, true, 0)
    ensures ValidSpace(UNIT) && MovedAll(UNIT, At(1.0).params, nudges) == At(1.0).params
    ensures Stays(UNIT[0], Float(1.0), nudges(0))
  {
    assert UNIT[..0] == [] && MovedAll([], At(1.0).params, nudges) == map[];
    assert Lookup(At(1.0).params, "x") == Some(Float(1.0));
    assert Moved(UNIT[0], Some(Float(1.0)), nudges(0)) == Float(1.0);
  }

  /** A perturbed turn simulates the point it was to move away from. */
  lemma {:induction false} PerturbedTurnRepeats(run: Run)
    requires run == Repeating()
    ensures ValidSpace(run.goal.space)
    ensures var first := First(1.0, ZERO_COST);
            && Next(run, [], ZERO_COST, {}) == Record(first)
            && Next(run, [first], ZERO_COST, {}).Record?
            && Next(run, [first], ZERO_COST, {}).episode.outcome.Measured?
            && Next(run, [first], ZERO_COST, {}).episode.candidate == Candidate(first.candidate.params, Perturb)
  {
    var first := First(1.0, ZERO_COST);
    FirstTurn(run, 1.0);
    PointPasses(1.0, run.read);
    assert SameParams(At(1.0).params, [first][0].candidate.params, TOLERANCE);
    assert Duplicates(At(1.0), [first]);
    BoundStays(run.nudges(run.seed, 1, UNIT, At(1.0).params));
  }

  // ---------------------------------------------------------------- the guard

  /** Bounds that hold no integer let a value through that is outside them. */
  lemma {:induction false} PassedOutsideItsBounds(read: Reader)
    ensures var space := [IntParam("n", 0.2, 0.8)];
            var guarded := Validated(Candidate(map["n" := Whole(0)], Planner), space, read);
            ValidSpace(space) && guarded.Passed? && !Conforms(guarded.candidate.params, space)
  {
    var space := [IntParam("n", 0.2, 0.8)];
    var candidate := Candidate(map["n" := Whole(0)], Planner);
    assert space[0].name == "n" && Names(space) == {"n"};
    assert IsInteger(0, 0.0) && Readable(space[0], Whole(0), read);
    RefusedExactlyWhen(candidate, space, read);
    ValidatedConforms(candidate, space, read);
    assert !HasInteger(space[0]);
  }

  // ---------------------------------------------------------------- the grid

  /** Two choices on a budget of one. */
  lemma {:induction false} ChoicesExceedTheBudget()
    ensures var space := [CategoricalParam("c", ["a", "b"])];
            ValidSpace(space) && Total(AxesOf(space, 1)) > 1
  {
    var space := [CategoricalParam("c", ["a", "b"])];
    assert CategoricalSize(space) == CategoricalSize([]) * 2;
    GridFitsBudgetExactlyWhen(space, 1);
  }

  /** An odd budget past 2^53, where floats are even: it is rounded up by one, and so is the seed. */
  const ROUNDED_BUDGET: nat := 9007199254740995

  /** An overshooting seed is kept, and the grid does not fit. */
  lemma {:induction false} OvershootExceedsTheBudget(budget: nat, root: nat)
    requires budget == ROUNDED_BUDGET && root == budget + 1
    ensures ValidSpace(UNIT) && SizedFrom(UNIT, budget, root) == root
    ensures !SeedFits(UNIT, budget, root) && Total(AxesWith(UNIT, SizedFrom(UNIT, budget, root))) > budget
  {
    assert NumericAxes(UNIT) == NumericAxes([]) + 1 && CategoricalSize(UNIT) == CategoricalSize([]) * 1;
    assert Pow(root, 1) == root * Pow(root, 0) == root;
    OvershootStays(root, 1, 1, budget);
    SizedGridFitsBudget(UNIT, budget, root);
  }
}
