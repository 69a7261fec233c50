/** The vocabulary of the system: parameter spaces, candidates, simulator results,
    budgets, episodes and run states.  Every value here is immutable, as in the source. */
module Domain {

  datatype Option<+T> = None | Some(value: T)

  // ---------------------------------------------------------------- goals and spaces

  datatype Direction = Minimise | Maximise

  datatype Objective = Objective(direction: Direction, target: Option<real>)

  datatype ParamSpec =
    | FloatParam(name: string, low: real, high: real)
    | IntParam(name: string, low: real, high: real)
    | CategoricalParam(name: string, choices: seq<string>)
  {
    predicate Valid() {
      && name != ""
      && (CategoricalParam? ==> choices != [])
      && (!CategoricalParam? ==> low < high)
    }
  }

  type Space = seq<ParamSpec>

  predicate DistinctNames(space: Space) {
    forall i, j | 0 <= i < j < |space| :: space[i].name != space[j].name
  }

  /** What the models of a parameter space enforce when one is built. */
  predicate ValidSpace(space: Space) {
    && space != []
    && (forall i | 0 <= i < |space| :: space[i].Valid())
    && DistinctNames(space)
  }

  function Names(space: Space): set<string> {
    set spec | spec in space :: spec.name
  }

  /** A test problem, with what is published about its optimum. */
  datatype Benchmark = Benchmark(
    space: Space, constrained: bool, direction: Direction, objective: seq<real> -> real,
    knownOptimum: real, knownOptimisers: seq<seq<real>>)

  datatype Goal = Goal(objective: Objective, space: Space)

  // ---------------------------------------------------------------- candidates and results

  /** A parameter value as proposed: a finite float, a NaN or infinity, an integer or text. */
  datatype Value = Float(x: real) | NotFinite | Whole(n: int) | Text(s: string)

  type Params = map<string, Value>

  datatype Source = Planner | Exploit | Explore | Repair | Perturb | Surrogate | Baseline

  datatype Candidate = Candidate(params: Params, source: Source)

  datatype SimResult = SimResult(objectiveValue: real, violations: seq<real>, feasible: bool, wallTime: real)

  /** What an episode produced: the simulator's answer, or the error recorded instead. */
  datatype Outcome = Measured(result: SimResult) | Errored(kind: string, retryable: bool)

  datatype Evaluation = Evaluation(improved: bool, delta: real, feasible: bool)

  datatype Cost = Cost(calls: nat, promptTokens: nat, completionTokens: nat, eur: real, repairAttempts: nat)

  const ZERO_COST := Cost(0, 0, 0, 0.0, 0)

  datatype Episode = Episode(idx: nat, candidate: Candidate, outcome: Outcome, evaluation: Evaluation, cost: Cost)

  datatype Best = Best(episodeIdx: nat, candidate: Candidate, result: SimResult)

  function TotalViolation(violations: seq<real>): real {
    if violations == [] then 0.0 else violations[0] + TotalViolation(violations[1..])
  }

  /** The comparison behind `better_than`, against an incumbent's result. */
  predicate Beats(left: SimResult, right: SimResult, direction: Direction) {
    if left.feasible != right.feasible then left.feasible
    else if !left.feasible then TotalViolation(left.violations) < TotalViolation(right.violations)
    else match direction
      case Minimise => left.objectiveValue < right.objectiveValue
      case Maximise => left.objectiveValue > right.objectiveValue
  }

  predicate BetterThan(result: SimResult, best: Option<Best>, objective: Objective) {
    best.None? || Beats(result, best.value.result, objective.direction)
  }

  function DeltaVs(result: SimResult, best: Option<Best>, objective: Objective): real {
    if best.None? then 0.0
    else
      var difference := result.objectiveValue - best.value.result.objectiveValue;
      if objective.direction.Minimise? then -difference else difference
  }

  /** `better_than` orders results like a score: a strict weak order, in either direction. */
  lemma {:induction false} BeatsIsStrictWeakOrder(a: SimResult, b: SimResult, c: SimResult, direction: Direction)
    ensures !Beats(a, a, direction)
    ensures Beats(a, b, direction) ==> !Beats(b, a, direction)
    ensures Beats(a, b, direction) && Beats(b, c, direction) ==> Beats(a, c, direction)
    ensures Beats(a, c, direction) ==> Beats(a, b, direction) || Beats(b, c, direction)
  {
  }

  /** Between feasible results the recorded delta is positive exactly on an improvement. */
  lemma {:induction false} DeltaAgreesWithBetterThan(result: SimResult, best: Best, objective: Objective)
    requires result.feasible && best.result.feasible
    ensures DeltaVs(result, Some(best), objective) > 0.0 <==> BetterThan(result, Some(best), objective)
  {
  }

  lemma {:induction false} ViolationsAdd(left: seq<real>, right: seq<real>)
    ensures TotalViolation(left + right) == TotalViolation(left) + TotalViolation(right)
  {
    if left == [] {
      assert left + right == right;
    } else {
      assert (left + right)[1..] == left[1..] + right;
      ViolationsAdd(left[1..], right);
    }
  }

  lemma {:induction false} ViolationsAreNotNegative(violations: seq<real>)
    requires forall i | 0 <= i < |violations| :: violations[i] >= 0.0
    ensures TotalViolation(violations) >= 0.0
    ensures (exists i :: 0 <= i < |violations| && violations[i] > 0.0) ==> TotalViolation(violations) > 0.0
  {
    if violations != [] {
      ViolationsAreNotNegative(violations[1..]);
      assert forall i | 0 < i < |violations| :: violations[i] == violations[1..][i - 1];
    }
  }

  /** The total is the sum: of one violation it is that violation, of two lists together it is both sums. */
  lemma {:induction false} TotalViolationIsTheSum(left: seq<real>, right: seq<real>, violation: real)
    ensures TotalViolation([]) == 0.0
    ensures TotalViolation([violation]) == violation
    ensures TotalViolation(left + right) == TotalViolation(left) + TotalViolation(right)
  {
    assert [violation][1..] == [];
    ViolationsAdd(left, right);
  }

  /** Of two infeasible results the one that violates more on top of the same is beaten, and never beats;
      and an infeasible result never beats a feasible one. */
  lemma {:induction false} ViolatingMoreLoses(a: SimResult, b: SimResult, extra: seq<real>, direction: Direction)
    requires !a.feasible && a.violations == b.violations + extra
    requires forall i | 0 <= i < |extra| :: extra[i] >= 0.0
    requires exists i :: 0 <= i < |extra| && extra[i] > 0.0
    ensures Beats(b, a, direction) && !Beats(a, b, direction)
  {
    ViolationsAdd(b.violations, extra);
    ViolationsAreNotNegative(extra);
  }

  // ---------------------------------------------------------------- budgets

  datatype Budget = Budget(
    maxEvaluations: nat, evaluationsUsed: nat,
    maxCost: real, costUsed: real,
    maxWallClock: real, wallClockUsed: real,
    maxRejections: nat, rejectionsUsed: nat)
  {
    predicate Exhausted() {
      evaluationsUsed >= maxEvaluations || costUsed >= maxCost || wallClockUsed >= maxWallClock
    }

    predicate RejectionsExceeded() {
      rejectionsUsed >= maxRejections
    }

    function WithEvaluation(wallTime: real, cost: Cost): Budget {
      this.(evaluationsUsed := evaluationsUsed + 1,
            costUsed := costUsed + cost.eur,
            wallClockUsed := wallClockUsed + wallTime)
    }

    function WithRejection(cost: Cost): Budget {
      this.(costUsed := costUsed + cost.eur, rejectionsUsed := rejectionsUsed + 1)
    }

    /** The limits alone, with nothing spent. */
    function Unspent(): Budget {
      this.(evaluationsUsed := 0, costUsed := 0.0, wallClockUsed := 0.0, rejectionsUsed := 0)
    }

    predicate ValidLimits() {
      maxEvaluations > 0 && maxCost > 0.0 && maxWallClock > 0.0
    }
  }

  // ---------------------------------------------------------------- runs

  datatype Status = Pending | Planning | Executing | Critiquing | Replanning | Done | Failed | Aborted

  datatype Reason = Success | BudgetSpent | Stagnation | Error | Exhausted | Rejections

  type RunId = nat

  datatype RunState = RunState(
    runId: RunId, goal: Goal, status: Status, history: seq<Episode>,
    best: Option<Best>, budget: Budget, stepIdx: nat, seed: int)
  {
    function Advanced(episode: Episode, newBest: Option<Best>, newBudget: Budget, newStatus: Status): RunState {
      this.(status := newStatus, history := history + [episode], best := newBest,
            budget := newBudget, stepIdx := episode.idx + 1)
    }
  }
}
