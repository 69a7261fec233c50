/** Position, incumbent and budget use, recomputed from the recorded episodes. */
module History {
  import opened Domain

  /** The incumbent once `episode` is compared with the best so far. */
  function Improve(best: Option<Best>, episode: Episode, objective: Objective): Option<Best> {
    match episode.outcome
    case Errored(_, _) => best
    case Measured(result) =>
      if BetterThan(result, best, objective) then Some(Best(episode.idx, episode.candidate, result)) else best
  }

  function BestOf(history: seq<Episode>, objective: Objective): Option<Best> {
    if history == [] then None
    else Improve(BestOf(history[..|history| - 1], objective), history[|history| - 1], objective)
  }

  function Spend(budget: Budget, episode: Episode): Budget {
    match episode.outcome
    case Measured(result) => budget.WithEvaluation(result.wallTime, episode.cost)
    case Errored(_, _) => budget.WithRejection(episode.cost)
  }

  /** What is spent under the limits of `budget`, whatever its own counters say. */
  function BudgetOf(budget: Budget, history: seq<Episode>): Budget {
    if history == [] then budget.Unspent()
    else Spend(BudgetOf(budget, history[..|history| - 1]), history[|history| - 1])
  }

  /** One more than the largest index recorded; 0 for an empty history. */
  function NextIndex(history: seq<Episode>): nat {
    if history == [] then 0
    else
      var before := NextIndex(history[..|history| - 1]);
      var last := history[|history| - 1].idx;
      if last + 1 > before then last + 1 else before
  }

  function Rehydrated(state: RunState): RunState {
    state.(best := BestOf(state.history, state.goal.objective),
           budget := BudgetOf(state.budget, state.history),
           stepIdx := NextIndex(state.history))
  }

  predicate GoalSatisfied(best: Option<Best>, goal: Goal) {
    && best.Some?
    && goal.objective.target.Some?
    && best.value.result.feasible
    && match goal.objective.direction
       case Minimise => best.value.result.objectiveValue <= goal.objective.target.value
       case Maximise => best.value.result.objectiveValue >= goal.objective.target.value
  }

  // ---------------------------------------------------------------- the loops of the source

  method RecomputeBest(history: seq<Episode>, objective: Objective) returns (best: Option<Best>)
    ensures best == BestOf(history, objective)
  {
    best := None;
    for i := 0 to |history|
      invariant best == BestOf(history[..i], objective)
    {
      assert history[..i + 1][..i] == history[..i];
      var episode := history[i];
      if episode.outcome.Measured? {
        if BetterThan(episode.outcome.result, best, objective) {
          best := Some(Best(episode.idx, episode.candidate, episode.outcome.result));
        }
      }
    }
    assert history[..|history|] == history;
  }

  method RecomputeBudget(budget: Budget, history: seq<Episode>) returns (spent: Budget)
    ensures spent == BudgetOf(budget, history)
  {
    var evaluations, rejections := 0, 0;
    var wallClock, cost := 0.0, 0.0;
    for i := 0 to |history|
      invariant evaluations >= 0 && rejections >= 0
      invariant BudgetOf(budget, history[..i]) == budget.(evaluationsUsed := evaluations, costUsed := cost,
                                                          wallClockUsed := wallClock, rejectionsUsed := rejections)
    {
      assert history[..i + 1][..i] == history[..i];
      var episode := history[i];
      if episode.outcome.Measured? {
        evaluations := evaluations + 1;
        wallClock := wallClock + episode.outcome.result.wallTime;
      } else {
        rejections := rejections + 1;
      }
      cost := cost + episode.cost.eur;
    }
    assert history[..|history|] == history;
    spent := Budget(budget.maxEvaluations, evaluations, budget.maxCost, cost,
                    budget.maxWallClock, wallClock, budget.maxRejections, rejections);
  }

  method Rehydrate(state: RunState) returns (restored: RunState)
    ensures restored == Rehydrated(state)
  {
    var best := RecomputeBest(state.history, state.goal.objective);
    var budget := RecomputeBudget(state.budget, state.history);
    restored := state.(best := best, budget := budget, stepIdx := NextIndex(state.history));
  }

  // ---------------------------------------------------------------- recomputed equals kept

  predicate Contiguous(history: seq<Episode>) {
    forall i | 0 <= i < |history| :: history[i].idx == i
  }

  lemma {:induction false} ContiguousNextIndex(history: seq<Episode>)
    requires Contiguous(history)
    ensures NextIndex(history) == |history|
  {
    if history != [] {
      ContiguousNextIndex(history[..|history| - 1]);
    }
  }

  /** Extending the history by one episode extends every recomputed field by one step. */
  lemma {:induction false} Snoc(history: seq<Episode>, episode: Episode, objective: Objective, budget: Budget)
    ensures BestOf(history + [episode], objective) == Improve(BestOf(history, objective), episode, objective)
    ensures BudgetOf(budget, history + [episode]) == Spend(BudgetOf(budget, history), episode)
    ensures NextIndex(history + [episode]) ==
            if episode.idx + 1 > NextIndex(history) then episode.idx + 1 else NextIndex(history)
  {
    assert (history + [episode])[..|history|] == history;
  }

  lemma {:induction false} BudgetKeepsLimits(budget: Budget, history: seq<Episode>)
    ensures BudgetOf(budget, history).Unspent() == budget.Unspent()
    ensures BudgetOf(budget.Unspent(), history) == BudgetOf(budget, history)
  {
    if history != [] {
      BudgetKeepsLimits(budget, history[..|history| - 1]);
    }
  }

  /** Rehydration trusts nothing but the episodes: the stored best, index and counters are irrelevant. */
  lemma {:induction false} RehydrationIgnoresSnapshot(state: RunState, best: Option<Best>, budget: Budget, stepIdx: nat)
    requires budget.Unspent() == state.budget.Unspent()
    ensures Rehydrated(state.(best := best, budget := budget, stepIdx := stepIdx)) == Rehydrated(state)
    ensures Rehydrated(Rehydrated(state)) == Rehydrated(state)
  {
    BudgetKeepsLimits(budget, state.history);
    BudgetKeepsLimits(state.budget, state.history);
    BudgetKeepsLimits(BudgetOf(state.budget, state.history), state.history);
  }

  /** The next index is past every recorded one, and no further past the last than one, gaps or not. */
  lemma {:induction false} NextIndexIsOnePastTheLargest(history: seq<Episode>)
    ensures forall i | 0 <= i < |history| :: history[i].idx < NextIndex(history)
    ensures NextIndex(history) > 0 ==> exists i :: 0 <= i < |history| && history[i].idx + 1 == NextIndex(history)
    ensures history == [] ==> NextIndex(history) == 0
  {
    if history != [] {
      var n := |history| - 1;
      NextIndexIsOnePastTheLargest(history[..n]);
      assert forall i | 0 <= i < n :: history[..n][i] == history[i];
      if NextIndex(history) == NextIndex(history[..n]) {
        var i :| 0 <= i < n && history[..n][i].idx + 1 == NextIndex(history[..n]);
        assert history[i].idx + 1 == NextIndex(history);
      } else {
        assert history[n].idx + 1 == NextIndex(history);
      }
    }
  }

  // ---------------------------------------------------------------- histories up to cost

  function WithoutCost(episode: Episode): Episode {
    episode.(cost := ZERO_COST)
  }

  function WithoutCosts(history: seq<Episode>): (bare: seq<Episode>)
    ensures |bare| == |history|
  {
    seq(|history|, i requires 0 <= i < |history| => WithoutCost(history[i]))
  }

  /** The same episodes, whatever each was charged. */
  predicate SameUpToCost(left: seq<Episode>, right: seq<Episode>) {
    WithoutCosts(left) == WithoutCosts(right)
  }

  predicate NoEuros(history: seq<Episode>) {
    forall i | 0 <= i < |history| :: history[i].cost.eur == 0.0
  }

  lemma {:induction false} WithoutCostsOfPrefix(history: seq<Episode>, n: nat)
    requires n <= |history|
    ensures WithoutCosts(history[..n]) == WithoutCosts(history)[..n]
  {
  }

  lemma {:induction false} WithoutCostsSnoc(history: seq<Episode>, episode: Episode)
    ensures WithoutCosts(history + [episode]) == WithoutCosts(history) + [WithoutCost(episode)]
  {
  }

  /** No recomputed field depends on what episodes cost, as long as it was nothing in euros. */
  lemma {:induction false} CostsDoNotMatter(history: seq<Episode>, objective: Objective, budget: Budget)
    ensures BestOf(WithoutCosts(history), objective) == BestOf(history, objective)
    ensures NextIndex(WithoutCosts(history)) == NextIndex(history)
    ensures NoEuros(history) ==> BudgetOf(budget, WithoutCosts(history)) == BudgetOf(budget, history)
  {
    if history != [] {
      var n := |history| - 1;
      CostsDoNotMatter(history[..n], objective, budget);
      WithoutCostsOfPrefix(history, n);
    }
  }

  // ---------------------------------------------------------------- what the incumbent is

  /** Episode `p` was evaluated, no evaluated episode beats it, and it beats every earlier one. */
  ghost predicate FirstUnbeaten(history: seq<Episode>, p: nat, direction: Direction) {
    && p < |history|
    && history[p].outcome.Measured?
    && (forall q | 0 <= q < |history| && history[q].outcome.Measured? ::
          !Beats(history[q].outcome.result, history[p].outcome.result, direction))
    && (forall q | 0 <= q < p && history[q].outcome.Measured? ::
          Beats(history[p].outcome.result, history[q].outcome.result, direction))
  }

  function AsBest(episode: Episode): Best
    requires episode.outcome.Measured?
  {
    Best(episode.idx, episode.candidate, episode.outcome.result)
  }

  /** The recomputed incumbent is the earliest evaluated episode that no evaluated episode beats. */
  lemma {:induction false} BestIsFirstUnbeaten(history: seq<Episode>, objective: Objective) returns (p: nat)
    ensures BestOf(history, objective).None? <==> forall q | 0 <= q < |history| :: history[q].outcome.Errored?
    ensures BestOf(history, objective).Some? ==>
              && FirstUnbeaten(history, p, objective.direction)
              && BestOf(history, objective) == Some(AsBest(history[p]))
  {
    p := 0;
    if history != [] {
      var n := |history| - 1;
      var before := BestOf(history[..n], objective);
      p := BestIsFirstUnbeaten(history[..n], objective);
      if history[n].outcome.Measured? && BetterThan(history[n].outcome.result, before, objective) {
        if before.Some? {
          forall q | 0 <= q < n && history[q].outcome.Measured?
            ensures Beats(history[n].outcome.result, history[q].outcome.result, objective.direction)
            ensures !Beats(history[q].outcome.result, history[n].outcome.result, objective.direction)
          {
            assert history[..n][q] == history[q] && history[..n][p] == history[p];
            BeatsIsStrictWeakOrder(history[n].outcome.result, history[q].outcome.result,
                                   history[p].outcome.result, objective.direction);
          }
        } else {
          forall q | 0 <= q < n ensures history[q].outcome.Errored? {
            assert history[..n][q] == history[q];
          }
        }
        p := n;
      } else {
        assert forall q | 0 <= q < n :: history[..n][q] == history[q];
      }
    }
  }

  /** At most one episode can be the first unbeaten one. */
  lemma {:induction false} FirstUnbeatenIsUnique(history: seq<Episode>, p: nat, q: nat, direction: Direction)
    requires FirstUnbeaten(history, p, direction) && FirstUnbeaten(history, q, direction)
    ensures p == q
  {
  }

  /** `left` is at least as good an objective value as `right`. */
  predicate NoWorse(left: real, right: real, direction: Direction) {
    match direction
    case Minimise => left <= right
    case Maximise => left >= right
  }

  /** In plain terms: a feasible incumbent has the best objective value of all feasible results, and there is
      one as soon as anything was feasible; an infeasible one has the least total violation. */
  lemma {:induction false} IncumbentIsOptimal(history: seq<Episode>, objective: Objective, q: nat)
    requires q < |history| && history[q].outcome.Measured?
    ensures BestOf(history, objective).Some?
    ensures var best, other := BestOf(history, objective).value.result, history[q].outcome.result;
            && (other.feasible ==> best.feasible && NoWorse(best.objectiveValue, other.objectiveValue, objective.direction))
            && (!best.feasible ==> TotalViolation(best.violations) <= TotalViolation(other.violations))
  {
    var p := BestIsFirstUnbeaten(history, objective);
    assert !Beats(history[q].outcome.result, history[p].outcome.result, objective.direction);
  }

  /** A target once met stays met by any feasible result that beats the one meeting it. */
  lemma {:induction false} TargetStaysMet(best: Best, better: Best, goal: Goal)
    requires GoalSatisfied(Some(best), goal)
    requires better.result.feasible && Beats(better.result, best.result, goal.objective.direction)
    ensures GoalSatisfied(Some(better), goal)
  {
  }

  /** A feasible result on the target meets it, and what is worse than the target does not. */
  lemma {:induction false} TargetIsTheLimit(best: Best, goal: Goal)
    requires goal.objective.target.Some? && best.result.feasible
    ensures best.result.objectiveValue == goal.objective.target.value ==> GoalSatisfied(Some(best), goal)
    ensures GoalSatisfied(Some(best), goal) <==>
            NoWorse(best.result.objectiveValue, goal.objective.target.value, goal.objective.direction)
  {
  }
}
