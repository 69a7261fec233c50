/** Scoring a stored run: why it stopped, its best-so-far curve, and how soon it got close. */
module Metrics {
  import opened Domain
  import opened History
  import opened Guard
  import opened Persistence
  import opened Loop
  import opened Durability

  // ---------------------------------------------------------------- why a run stopped

  /** The reason recomputed from what is stored; None while the run is unfinished. */
  function DeriveTermination(stored: StoredRun): Option<Reason> {
    var state := stored.state;
    if state.status == Failed then Some(Error)
    else if state.status != Done then None
    else if state.budget.RejectionsExceeded() then Some(Rejections)
    else if state.budget.Exhausted() then Some(BudgetSpent)
    else if state.goal.objective.target.Some? && state.best.Some? && state.best.value.result.feasible then Some(Success)
    else Some(Exhausted)
  }

  /** Both allowances are spent at once. */
  predicate DoublySpent(state: RunState) {
    state.budget.Exhausted() && state.budget.RejectionsExceeded()
  }

  /** A target is set and the incumbent is feasible, whether or not it meets the target. */
  predicate FeasibleUnderTarget(state: RunState) {
    state.goal.objective.target.Some? && state.best.Some? && state.best.value.result.feasible
  }

  /** What the final state must be like for its snapshot to tell why the run stopped: not both allowances
      spent, and if neither, either the target met, or no detector firing and no feasible incumbent under a
      target. */
  predicate TellsWhy(run: Run, final: RunState) {
    && !DoublySpent(final)
    && (|| final.budget.Exhausted()
        || final.budget.RejectionsExceeded()
        || GoalSatisfied(final.best, run.goal)
        || (!run.stuck(final.history, run.goal) && !FeasibleUnderTarget(final)))
  }

  /** On the final snapshot of a stopped run, the derived reason is the reason the loop returned if and
      only if the snapshot tells it. */
  lemma {:induction false} DerivedReasonAgreesExactlyWhen(run: Run, history: seq<Episode>, reason: Reason, stored: StoredRun)
    requires ValidSpace(run.goal.space) && Next(run, history, ZERO_COST, {}) == Stop(reason)
    requires stored.state == StateOf(run, history, Done)
    ensures DeriveTermination(stored) == Some(reason) <==> TellsWhy(run, stored.state)
  {
    TakenIgnoresStatus(run, StateOf(run, history, Executing), Done, ZERO_COST, {});
  }

  /** With euro-free rejections no run ends with both allowances spent. */
  lemma {:induction false} FreeRejectionsNeverDoublySpend(run: Run)
    requires ValidRun(run)
    requires forall i | 0 <= i < |Uninterrupted(run).0| && Uninterrupted(run).0[i].outcome.Errored? ::
               Uninterrupted(run).0[i].cost.eur == 0.0
    ensures !DoublySpent(StateOf(run, Uninterrupted(run).0, Done))
  {
    var history := Uninterrupted(run).0;
    BudgetKeepsLimits(run.limits, history);
    if history != [] {
      var n := |history| - 1;
      TurnOfWhole(run, n);
      BudgetKeepsLimits(run.limits, history[..n]);
      assert history[n].cost.eur == 0.0 || history[n].outcome.Measured?;
    }
  }

  /** With no target, no detector and euro-free rejections, the stored final snapshot yields exactly
      the reason the loop returned. */
  lemma {:induction false} DerivedReasonOfPlainRun(run: Run, stored: StoredRun)
    requires ValidRun(run) && run.goal.objective.target.None?
    requires forall h, g :: !run.stuck(h, g)
    requires forall i | 0 <= i < |Uninterrupted(run).0| && Uninterrupted(run).0[i].outcome.Errored? ::
               Uninterrupted(run).0[i].cost.eur == 0.0
    requires stored.state == StateOf(run, Uninterrupted(run).0, Done)
    ensures DeriveTermination(stored) == Some(Uninterrupted(run).1)
  {
    CompleteTurns(run, [], ZERO_COST, {});
    FreeRejectionsNeverDoublySpend(run);
    DerivedReasonAgreesExactlyWhen(run, Uninterrupted(run).0, Uninterrupted(run).1, stored);
  }

  // ---------------------------------------------------------------- the best-so-far curve

  predicate IsBetter(value: real, incumbent: real, direction: Direction) {
    match direction
    case Minimise => value < incumbent
    case Maximise => value > incumbent
  }

  function Last(curve: seq<Option<real>>): Option<real> {
    if curve == [] then None else curve[|curve| - 1]
  }

  function Improved(best: Option<real>, result: SimResult, direction: Direction): Option<real> {
    if result.feasible && (best.None? || IsBetter(result.objectiveValue, best.value, direction))
    then Some(result.objectiveValue) else best
  }

  function Curve(history: seq<Episode>, direction: Direction): seq<Option<real>> {
    if history == [] then []
    else
      var before := Curve(history[..|history| - 1], direction);
      match history[|history| - 1].outcome
      case Errored(_, _) => before
      case Measured(result) => before + [Improved(Last(before), result, direction)]
  }

  method BestFeasibleCurve(history: seq<Episode>, benchmark: Benchmark) returns (curve: seq<Option<real>>)
    ensures curve == Curve(history, benchmark.direction)
  {
    curve := [];
    var best: Option<real> := None;
    for i := 0 to |history|
      invariant curve == Curve(history[..i], benchmark.direction)
      invariant best == Last(curve)
    {
      assert history[..i + 1][..i] == history[..i];
      if history[i].outcome.Measured? {
        var result := history[i].outcome.result;
        if result.feasible {
          if best.None? || IsBetter(result.objectiveValue, best.value, benchmark.direction) {
            best := Some(result.objectiveValue);
          }
        }
        curve := curve + [best];
      }
    }
    assert history[..|history|] == history;
  }

  /** The objective value of a feasible incumbent. */
  function FeasibleValue(best: Option<Best>): Option<real> {
    if best.Some? && best.value.result.feasible then Some(best.value.result.objectiveValue) else None
  }

  lemma {:induction false} CurveEndsAtIncumbent(history: seq<Episode>, objective: Objective)
    ensures |Curve(history, objective.direction)| == Evaluations(history)
    ensures Last(Curve(history, objective.direction)) == FeasibleValue(BestOf(history, objective))
  {
    if history != [] {
      CurveEndsAtIncumbent(history[..|history| - 1], objective);
    }
  }

  lemma {:induction false} CurveOfPrefix(history: seq<Episode>, n: nat, direction: Direction)
    requires n <= |history|
    ensures Curve(history[..n], direction) <= Curve(history, direction)
  {
    if n == |history| {
      assert history[..n] == history;
    } else {
      var init := history[..|history| - 1];
      assert init[..n] == history[..n];
      CurveOfPrefix(init, n, direction);
    }
  }

  /** The entry of an evaluation is the objective of the incumbent at that point if it is feasible,
      and None otherwise; rejections have no entry. */
  lemma {:induction false} CurveEntryIsIncumbent(history: seq<Episode>, n: nat, objective: Objective)
    requires 0 < n <= |history| && history[n - 1].outcome.Measured?
    ensures |Curve(history, objective.direction)| == Evaluations(history)
    ensures 0 < Evaluations(history[..n]) <= Evaluations(history)
    ensures Curve(history, objective.direction)[Evaluations(history[..n]) - 1] == FeasibleValue(BestOf(history[..n], objective))
  {
    CurveEndsAtIncumbent(history, objective);
    CurveEndsAtIncumbent(history[..n], objective);
    CurveOfPrefix(history, n, objective.direction);
  }

  // ---------------------------------------------------------------- regret

  function RegretOf(value: real, benchmark: Benchmark): real {
    var raw := if benchmark.direction.Minimise? then value - benchmark.knownOptimum else benchmark.knownOptimum - value;
    if raw < 0.0 then 0.0 else raw
  }

  /** Regret is how far a value is from the known optimum, and nothing for a value no worse than it. */
  lemma {:induction false} RegretMeans(value: real, benchmark: Benchmark)
    ensures NoWorse(value, benchmark.knownOptimum, benchmark.direction) ==> RegretOf(value, benchmark) == 0.0
    ensures !NoWorse(value, benchmark.knownOptimum, benchmark.direction) ==>
              RegretOf(value, benchmark) == Distance(value, benchmark.knownOptimum) > 0.0
  {
  }

  /** Once there is a value there is always one, and it never goes up. */
  ghost predicate NeverRises(curve: seq<Option<real>>) {
    forall i, j | 0 <= i < j < |curve| && curve[i].Some? :: curve[j].Some? && curve[j].value <= curve[i].value
  }

  function Regrets(curve: seq<Option<real>>, benchmark: Benchmark): seq<Option<real>> {
    seq(|curve|, i requires 0 <= i < |curve| =>
      if curve[i].Some? then Some(RegretOf(curve[i].value, benchmark)) else None)
  }

  /** The curve held at its last value up to `length` entries, and cut there. */
  function Padded(curve: seq<Option<real>>, length: nat): seq<Option<real>> {
    if |curve| >= length then curve[..length] else curve + seq(length - |curve|, _ => Last(curve))
  }

  /** How many episodes of a history have a property. */
  function CountWhere(history: seq<Episode>, p: Episode -> bool): nat {
    if history == [] then 0
    else CountWhere(history[..|history| - 1], p) + if p(history[|history| - 1]) then 1 else 0
  }

  function Feasible(): Episode -> bool {
    (episode: Episode) => episode.outcome.Measured? && episode.outcome.result.feasible
  }

  /** The cost recorded says that a provider was called. */
  function CallMade(): Cost -> bool {
    (cost: Cost) => cost.calls > 0
  }

  /** And that nothing had to be repaired. */
  function FirstTry(): Cost -> bool {
    (cost: Cost) => cost.calls > 0 && cost.repairAttempts == 0
  }

  function Costing(p: Cost -> bool): Episode -> bool {
    (episode: Episode) => p(episode.cost)
  }

  /** The error recorded is that no answer satisfied the schema. */
  function SchemaFailure(): Episode -> bool {
    (episode: Episode) => episode.outcome.Errored? && episode.outcome.kind == "LLMOutputError"
  }

  method Count(history: seq<Episode>, p: Episode -> bool) returns (count: nat)
    ensures count == CountWhere(history, p)
  {
    count := 0;
    for i := 0 to |history|
      invariant count == CountWhere(history[..i], p)
    {
      assert history[..i + 1][..i] == history[..i];
      if p(history[i]) {
        count := count + 1;
      }
    }
    assert history[..|history|] == history;
  }

  /** Something feasible is counted exactly when the curve reaches a value. */
  lemma {:induction false} FeasibleAreOnTheCurve(history: seq<Episode>, direction: Direction)
    ensures CountWhere(history, Feasible()) > 0 <==> Last(Curve(history, direction)).Some?
  {
    if history != [] {
      FeasibleAreOnTheCurve(history[..|history| - 1], direction);
    }
  }

  /** Counting is counting indices. */
  lemma {:induction false} CountIsOfIndices(history: seq<Episode>, p: Episode -> bool)
    ensures CountWhere(history, p) == |set i | 0 <= i < |history| && p(history[i])|
  {
    if history != [] {
      var n := |history| - 1;
      CountIsOfIndices(history[..n], p);
      var before := set i | 0 <= i < n && p(history[..n][i]);
      var now := set i | 0 <= i < |history| && p(history[i]);
      assert forall i | 0 <= i < n :: history[..n][i] == history[i];
      assert now == if p(history[n]) then before + {n} else before;
    }
  }

  lemma {:induction false} FeasibleAreEvaluations(history: seq<Episode>)
    ensures CountWhere(history, Feasible()) <= Evaluations(history)
  {
    if history != [] {
      FeasibleAreEvaluations(history[..|history| - 1]);
    }
  }

  lemma {:induction false} CompliantAreModelCalls(history: seq<Episode>)
    ensures CountWhere(history, Costing(FirstTry())) <= CountWhere(history, Costing(CallMade())) <= |history|
  {
    if history != [] {
      CompliantAreModelCalls(history[..|history| - 1]);
    }
  }

  datatype RunSummary = RunSummary(
    termination: Option<Reason>, evaluations: nat, rejections: nat, maxEvaluations: nat,
    bestObjective: Option<real>, regret: Option<real>, feasibleFraction: real, wallClock: real,
    regretCurve: seq<Option<real>>, modelCalls: nat, compliantCalls: nat, schemaFailures: nat)
  {
    /** The fraction of model calls that produced valid output first time; None when there were none. */
    function SchemaCompliance(): Option<real> {
      if modelCalls + schemaFailures == 0 then None
      else Some(compliantCalls as real / (modelCalls + schemaFailures) as real)
    }
  }

  lemma {:induction false} FractionOf(part: nat, whole: nat)
    requires part <= whole && whole > 0
    ensures 0.0 <= part as real / whole as real <= 1.0
    ensures part as real / whole as real * whole as real == part as real
  {
  }

  /** `fraction` of the whole is the part; of nothing it is nothing. */
  predicate IsFraction(fraction: real, part: nat, whole: nat) {
    0.0 <= fraction <= 1.0 && fraction * whole as real == part as real && (whole == 0 ==> fraction == 0.0)
  }

  method FeasibleFraction(history: seq<Episode>, evaluations: nat) returns (fraction: real)
    requires evaluations == Evaluations(history)
    ensures IsFraction(fraction, CountWhere(history, Feasible()), Evaluations(history))
  {
    var feasible := Count(history, Feasible());
    FeasibleAreEvaluations(history);
    if evaluations == 0 {
      return 0.0;
    }
    FractionOf(feasible, evaluations);
    fraction := feasible as real / evaluations as real;
  }

  method SummariseRun(stored: StoredRun, benchmark: Benchmark) returns (summary: RunSummary)
    ensures summary.termination == DeriveTermination(stored)
    ensures summary.evaluations == Evaluations(stored.state.history)
    ensures summary.evaluations + summary.rejections == |stored.state.history|
    ensures summary.maxEvaluations == stored.state.budget.maxEvaluations
    ensures summary.wallClock == stored.state.budget.wallClockUsed
    ensures summary.bestObjective == FeasibleValue(BestOf(stored.state.history, Objective(benchmark.direction, None)))
    ensures summary.regret == if summary.bestObjective.Some? then Some(RegretOf(summary.bestObjective.value, benchmark)) else None
    ensures summary.regretCurve ==
            Padded(Regrets(Curve(stored.state.history, benchmark.direction), benchmark), stored.state.budget.maxEvaluations)
    ensures IsFraction(summary.feasibleFraction, CountWhere(stored.state.history, Feasible()), summary.evaluations)
    ensures summary.compliantCalls == CountWhere(stored.state.history, Costing(FirstTry())) <= summary.modelCalls
    ensures summary.modelCalls == CountWhere(stored.state.history, Costing(CallMade()))
    ensures summary.schemaFailures == CountWhere(stored.state.history, SchemaFailure())
  {
    var history := stored.state.history;
    var curve := BestFeasibleCurve(history, benchmark);
    CurveEndsAtIncumbent(history, Objective(benchmark.direction, None));
    CountersCount(stored.state.budget, history);
    var bestObjective := if curve != [] then curve[|curve| - 1] else None;
    var regret := if bestObjective.Some? then Some(RegretOf(bestObjective.value, benchmark)) else None;
    var feasibleFraction := FeasibleFraction(history, |curve|);
    var length := stored.state.budget.maxEvaluations;
    var regretCurve := PadCurve(Regrets(curve, benchmark), length);
    var modelCalls := Count(history, Costing(CallMade()));
    var compliantCalls := Count(history, Costing(FirstTry()));
    CompliantAreModelCalls(history);
    var schemaFailures := Count(history, SchemaFailure());
    summary := RunSummary(DeriveTermination(stored), |curve|, |history| - |curve|, length, bestObjective, regret,
                          feasibleFraction, stored.state.budget.wallClockUsed, regretCurve,
                          modelCalls, compliantCalls, schemaFailures);
  }

  /** Hold the last value up to `length` entries, and cut there. */
  method PadCurve(curve: seq<Option<real>>, length: nat) returns (padded: seq<Option<real>>)
    ensures padded == Padded(curve, length)
  {
    padded := curve;
    if padded != [] {
      if length > |padded| {
        padded := padded + seq(length - |padded|, _ => Last(curve));
      }
    } else {
      padded := seq(length, _ => None);
    }
    padded := padded[..length];
  }

  /** The rate of compliance is a rate, and there is one exactly when a model was asked. */
  lemma {:induction false} ComplianceIsARate(summary: RunSummary)
    requires summary.compliantCalls <= summary.modelCalls
    ensures summary.SchemaCompliance().None? <==> summary.modelCalls == 0 && summary.schemaFailures == 0
    ensures summary.SchemaCompliance().Some? ==>
              IsFraction(summary.SchemaCompliance().value, summary.compliantCalls, summary.modelCalls + summary.schemaFailures)
  {
    if summary.modelCalls + summary.schemaFailures > 0 {
      FractionOf(summary.compliantCalls, summary.modelCalls + summary.schemaFailures);
    }
  }

  predicate AtLeastAsGood(later: Option<real>, earlier: Option<real>, direction: Direction) {
    earlier.Some? ==> later.Some? && !IsBetter(earlier.value, later.value, direction)
  }

  lemma {:induction false} CurveNeverWorsens(history: seq<Episode>, direction: Direction, i: nat, j: nat)
    requires i <= j < |Curve(history, direction)|
    ensures AtLeastAsGood(Curve(history, direction)[j], Curve(history, direction)[i], direction)
  {
    var before := Curve(history[..|history| - 1], direction);
    if j < |before| {
      CurveNeverWorsens(history[..|history| - 1], direction, i, j);
    } else if i < j {
      CurveNeverWorsens(history[..|history| - 1], direction, i, j - 1);
    }
  }

  /** The padded regret curve has one entry per budgeted evaluation and never rises. */
  lemma {:induction false} RegretCurveNeverRises(history: seq<Episode>, benchmark: Benchmark, length: nat)
    ensures var curve := Padded(Regrets(Curve(history, benchmark.direction), benchmark), length);
            |curve| == length && NeverRises(curve)
  {
    var curve := Curve(history, benchmark.direction);
    forall i, j | 0 <= i < j < |curve| && curve[i].Some?
      ensures Regrets(curve, benchmark)[j].Some? && Regrets(curve, benchmark)[j].value <= Regrets(curve, benchmark)[i].value
    {
      CurveNeverWorsens(history, benchmark.direction, i, j);
    }
    assert NeverRises(Regrets(curve, benchmark));
  }

  /** The entry of an evaluation is the regret of the incumbent then, if it is feasible, and past the last
      evaluation the last entry is held. */
  lemma {:induction false} RegretEntryIsIncumbents(history: seq<Episode>, n: nat, benchmark: Benchmark, objective: Objective, length: nat)
    requires 0 < n <= |history| && history[n - 1].outcome.Measured? && objective.direction == benchmark.direction
    ensures 0 < Evaluations(history[..n]) <= Evaluations(history)
    ensures var curve := Padded(Regrets(Curve(history, benchmark.direction), benchmark), length);
            var value := FeasibleValue(BestOf(history[..n], objective));
            var regret := if value.Some? then Some(RegretOf(value.value, benchmark)) else None;
            && |curve| == length
            && (Evaluations(history[..n]) <= length ==> curve[Evaluations(history[..n]) - 1] == regret)
            && (Evaluations(history[..n]) == Evaluations(history) ==>
                  forall i | Evaluations(history) <= i < length :: curve[i] == regret)
  {
    CurveEntryIsIncumbent(history, n, objective);
  }

  function Within(value: Option<real>, threshold: real): bool {
    value.Some? && value.value <= threshold
  }

  method EvaluationsToThreshold(curve: seq<Option<real>>, threshold: real) returns (count: Option<nat>)
    ensures count.None? <==> forall i | 0 <= i < |curve| :: !Within(curve[i], threshold)
    ensures count.Some? ==>
              && 1 <= count.value <= |curve| && Within(curve[count.value - 1], threshold)
              && forall i | 0 <= i < count.value - 1 :: !Within(curve[i], threshold)
    ensures forall k | 0 <= k < |curve| && curve[k] == Some(threshold) :: count.Some? && count.value <= k + 1
    ensures count.Some? && NeverRises(curve) ==>
              forall i | count.value - 1 <= i < |curve| :: Within(curve[i], threshold)
  {
    for i := 0 to |curve|
      invariant forall j | 0 <= j < i :: !Within(curve[j], threshold)
    {
      if Within(curve[i], threshold) {
        return Some(i + 1);
      }
    }
    count := None;
  }

  // ---------------------------------------------------------------- calls that reached a provider

  /** A property of costs that only a cost with a call has. */
  ghost predicate OfCalls(p: Cost -> bool) {
    forall cost: Cost :: p(cost) ==> cost.calls > 0
  }

  /** The ask after `history` makes a call not on record, and its charge has the property. */
  predicate FreshAt(run: Run, p: Cost -> bool, history: seq<Episode>) {
    && !AskAt(run, history).ProviderFailed?
    && match PromptAt(run, history)
       case None => false
       case Some(key) => key !in AskedBy(run, history) && p(run.answer(key).cost)
  }

  /** The ask after `history` fails, and the charge of the episode before has the property. */
  predicate CarriedAt(run: Run, p: Cost -> bool, history: seq<Episode>) {
    history != [] && AskAt(run, history).ProviderFailed? && p(history[|history| - 1].cost)
  }

  /** How many episodes of a history came of such a call. */
  function FreshCalls(run: Run, p: Cost -> bool, history: seq<Episode>): nat {
    if history == [] then 0
    else
      var before := history[..|history| - 1];
      FreshCalls(run, p, before) + if FreshAt(run, p, before) then 1 else 0
  }

  /** How many were charged again for the call of the episode before. */
  function CarriedCalls(run: Run, p: Cost -> bool, history: seq<Episode>): nat {
    if history == [] then 0
    else
      var before := history[..|history| - 1];
      CarriedCalls(run, p, before) + if CarriedAt(run, p, before) then 1 else 0
  }

  lemma {:induction false} ChargedAt(run: Run, p: Cost -> bool, n: nat)
    requires ValidSpace(run.goal.space) && OfCalls(p) && n < |Uninterrupted(run).0|
    ensures var before := Uninterrupted(run).0[..n];
            p(Uninterrupted(run).0[n].cost) <==> FreshAt(run, p, before) || CarriedAt(run, p, before)
  {
    TurnOfWhole(run, n);
  }

  /** Counting episodes whose cost has the property counts the calls made, and those charged twice. */
  lemma {:induction false} CountedCalls(run: Run, p: Cost -> bool, n: nat)
    requires ValidSpace(run.goal.space) && OfCalls(p) && n <= |Uninterrupted(run).0|
    ensures var history := Uninterrupted(run).0[..n];
            CountWhere(history, Costing(p)) == FreshCalls(run, p, history) + CarriedCalls(run, p, history)
  {
    if n > 0 {
      var history := Uninterrupted(run).0[..n];
      CountedCalls(run, p, n - 1);
      ChargedAt(run, p, n - 1);
      assert history[..n - 1] == Uninterrupted(run).0[..n - 1];
    }
  }

  lemma {:induction false} CarriedNowhere(run: Run, p: Cost -> bool, history: seq<Episode>)
    ensures CarriedCalls(run, p, history) == 0 <==> forall i | 0 <= i < |history| :: !CarriedAt(run, p, history[..i])
  {
    if history != [] {
      var n := |history| - 1;
      CarriedNowhere(run, p, history[..n]);
      assert forall i | 0 <= i < n :: history[..n][..i] == history[..i];
    }
  }

  /** On an uninterrupted run, counting by cost counts the calls that reached a provider if and only if no ask
      fails after an episode charged with such a call. */
  lemma {:induction false} CallsAreCountedExactlyWhen(run: Run, p: Cost -> bool)
    requires ValidSpace(run.goal.space) && OfCalls(p)
    ensures var history := Uninterrupted(run).0;
            CountWhere(history, Costing(p)) == FreshCalls(run, p, history) <==>
              forall i | 0 <= i < |history| :: !CarriedAt(run, p, history[..i])
  {
    var history := Uninterrupted(run).0;
    CountedCalls(run, p, |history|);
    assert history[..|history|] == history;
    CarriedNowhere(run, p, history);
  }

  /** So are the model calls and the calls accepted at the first attempt. */
  lemma {:induction false} SummaryCountsCallsExactlyWhen(run: Run)
    requires ValidSpace(run.goal.space)
    ensures var history := Uninterrupted(run).0;
            && (CountWhere(history, Costing(CallMade())) == FreshCalls(run, CallMade(), history) <==>
                  forall i | 0 <= i < |history| :: !CarriedAt(run, CallMade(), history[..i]))
            && (CountWhere(history, Costing(FirstTry())) == FreshCalls(run, FirstTry(), history) <==>
                  forall i | 0 <= i < |history| :: !CarriedAt(run, FirstTry(), history[..i]))
  {
    CallsAreCountedExactlyWhen(run, CallMade());
    CallsAreCountedExactlyWhen(run, FirstTry());
  }
}
