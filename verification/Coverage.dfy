/** Grid search driven by the loop: the run simulates the grid, all of it, in order, each point once. */
module Coverage {
  import opened Domain
  import opened History
  import opened Guard
  import opened Loop
  import opened Durability
  import opened Grid

  ghost predicate UsesGrid(run: Run) {
    && (forall g: Goal, n: nat, h: seq<Episode>, s: int, i: nat :: ValidSpace(g.space) && HasIntegers(g.space) ==>
          run.propose(g, n, h, s, i) == GridProposal(g.space, n, h))
    && forall g: Goal, n: nat, h: seq<Episode>, s: int, i: nat :: run.prompt(g, n, h, s, i).None?
  }

  /** The axes of the grid the run's budget buys. */
  function AxesFor(run: Run): Axes
    requires ValidRun(run)
  {
    AxesOf(run.goal.space, run.limits.maxEvaluations)
  }

  function PointOf(run: Run, i: nat): Params
    requires ValidRun(run) && HasIntegers(run.goal.space)
  {
    GridAxes(run.goal.space, run.limits.maxEvaluations);
    PointValuesFollowDigits(AxesFor(run), i);
    ToParams(run.goal.space, PointValues(AxesFor(run), i))
  }

  /** Time the simulator takes on the first `n` grid points. */
  function WallClock(run: Run, n: nat): real
    requires ValidRun(run) && HasIntegers(run.goal.space)
  {
    if n == 0 then 0.0
    else
      var outcome := run.simulate(PointOf(run, n - 1), n - 1);
      WallClock(run, n - 1) + if outcome.Measured? then outcome.result.wallTime else 0.0
  }

  /** A grid run nothing else can stop: the grid fits, its points are tellable apart, some rejection is
      allowed, no target, no detector, a simulator that answers, and time enough. */
  ghost predicate Unhindered(run: Run) {
    && ValidRun(run) && HasIntegers(run.goal.space) && UsesGrid(run)
    && CategoricalSize(run.goal.space) <= run.limits.maxEvaluations
    && (forall i | 0 <= i < |run.goal.space| ::
          WellSpaced(run.goal.space[i], PointsFor(run.goal.space, run.limits.maxEvaluations), TOLERANCE))
    && run.limits.maxRejections > 0
    && run.goal.objective.target.None?
    && (forall h, g :: !run.stuck(h, g))
    && (forall p, i :: run.simulate(p, i).Measured?)
    && (forall n: nat | n <= Total(AxesFor(run)) :: WallClock(run, n) < run.limits.maxWallClock)
  }

  /** The episode is the simulation of the `i`-th grid point. */
  ghost predicate Visits(run: Run, episode: Episode, i: nat)
    requires ValidRun(run) && HasIntegers(run.goal.space)
  {
    && episode.idx == i
    && episode.candidate == Candidate(PointOf(run, i), Baseline)
    && episode.outcome == run.simulate(PointOf(run, i), i)
    && episode.cost == ZERO_COST
  }

  ghost predicate GridPrefix(run: Run, history: seq<Episode>)
    requires ValidRun(run) && HasIntegers(run.goal.space)
  {
    |history| <= Total(AxesFor(run)) && forall i | 0 <= i < |history| :: Visits(run, history[i], i)
  }

  lemma {:induction false} PointConforms(run: Run, i: nat)
    requires ValidRun(run) && HasIntegers(run.goal.space)
    ensures Conforms(PointOf(run, i), run.goal.space)
  {
    var space := run.goal.space;
    GridAxes(space, run.limits.maxEvaluations);
    PointValuesFollowDigits(AxesFor(run), i);
    ToParamsMeaning(space, PointValues(AxesFor(run), i));
  }

  /** No two grid points are the same point to the duplicate test. */
  lemma {:induction false} PointsAreDistinct(run: Run, i: nat, j: nat)
    requires Unhindered(run) && i < Total(AxesFor(run)) && j < Total(AxesFor(run)) && i != j
    ensures !SameParams(PointOf(run, i), PointOf(run, j), TOLERANCE)
  {
    var space, axes := run.goal.space, AxesFor(run);
    GridAxes(space, run.limits.maxEvaluations);
    forall m | 0 <= m < |axes| ensures Separated(axes[m], TOLERANCE) {
      AxisSeparated(space[m], PointsFor(space, run.limits.maxEvaluations), TOLERANCE);
    }
    var k := DifferentPoints(axes, i, j, TOLERANCE);
    ToParamsMeaning(space, PointValues(axes, i));
    ToParamsMeaning(space, PointValues(axes, j));
    assert space[k].name in PointOf(run, i);
  }

  lemma {:induction false} GridBudget(run: Run, history: seq<Episode>)
    requires Unhindered(run) && GridPrefix(run, history)
    ensures BudgetOf(run.limits, history) ==
            run.limits.(evaluationsUsed := |history|, costUsed := 0.0, wallClockUsed := WallClock(run, |history|), rejectionsUsed := 0)
  {
    if history != [] {
      var n := |history| - 1;
      GridBudget(run, history[..n]);
      assert Visits(run, history[n], n);
    }
  }

  lemma {:induction false} GridTurn(run: Run, history: seq<Episode>)
    requires Unhindered(run) && GridPrefix(run, history)
    ensures var total := Total(AxesFor(run));
            if |history| < total
            then Next(run, history, ZERO_COST, {}).Record? && Visits(run, Next(run, history, ZERO_COST, {}).episode, |history|)
            else Next(run, history, ZERO_COST, {}) == Stop(if total < run.limits.maxEvaluations then Exhausted else BudgetSpent)
  {
    var total, n := Total(AxesFor(run)), |history|;
    GridFitsBudgetExactlyWhen(run.goal.space, run.limits.maxEvaluations);
    GridBudget(run, history);
    assert forall i | 0 <= i < n :: Visits(run, history[i], i);
    ContiguousNextIndex(history);
    assert WallClock(run, n) < run.limits.maxWallClock;
    if n < total {
      var candidate := Candidate(PointOf(run, n), Baseline);
      PointConforms(run, n);
      ConformingPassesUnchanged(candidate, run.goal.space, run.read);
      forall i | 0 <= i < n ensures !SameParams(candidate.params, history[i].candidate.params, TOLERANCE) {
        PointsAreDistinct(run, n, i);
        assert Visits(run, history[i], i);
      }
      assert !Duplicates(candidate, history);
    }
  }

  lemma {:induction false} GridContinues(run: Run, history: seq<Episode>)
    requires Unhindered(run) && GridPrefix(run, history)
    ensures var (all, reason) := Complete(run, history, ZERO_COST, {});
            && GridPrefix(run, all) && |all| == Total(AxesFor(run))
            && reason == if Total(AxesFor(run)) < run.limits.maxEvaluations then Exhausted else BudgetSpent
    decreases Total(AxesFor(run)) - |history|
  {
    GridTurn(run, history);
    if |history| < Total(AxesFor(run)) {
      var episode := Next(run, history, ZERO_COST, {}).episode;
      CompleteFromNext(run, history, ZERO_COST, {});
      assert {} + AskedAfter(run, history) == {};
      assert GridPrefix(run, history + [episode]);
      GridContinues(run, history + [episode]);
    }
  }

  /** Run from nothing, an unhindered grid run simulates point 0 to the last, in order, each exactly
      once and nothing else, and stops because the grid, or exactly the budget, is used up. */
  lemma {:induction false} GridRunCoversTheGrid(run: Run)
    requires Unhindered(run)
    ensures var (history, reason) := Uninterrupted(run);
            && |history| == Total(AxesFor(run)) <= run.limits.maxEvaluations
            && (forall i | 0 <= i < |history| :: Visits(run, history[i], i))
            && (forall i, j | 0 <= i < |history| && 0 <= j < |history| && i != j ::
                  !SameParams(history[i].candidate.params, history[j].candidate.params, TOLERANCE))
            && reason == if |history| < run.limits.maxEvaluations then Exhausted else BudgetSpent
  {
    GridFitsBudgetExactlyWhen(run.goal.space, run.limits.maxEvaluations);
    GridContinues(run, []);
    var history := Uninterrupted(run).0;
    forall i, j | 0 <= i < |history| && 0 <= j < |history| && i != j
      ensures !SameParams(history[i].candidate.params, history[j].candidate.params, TOLERANCE)
    {
      PointsAreDistinct(run, i, j);
      assert Visits(run, history[i], i) && Visits(run, history[j], j);
    }
  }

  /** Every combination of axis values is simulated by some episode of the run. */
  lemma {:induction false} EveryCombinationIsSimulated(run: Run, values: seq<Value>)
    requires Unhindered(run) && InProduct(AxesFor(run), values)
    ensures |values| == |run.goal.space|
    ensures exists i :: 0 <= i < |Uninterrupted(run).0| &&
              Uninterrupted(run).0[i].outcome == run.simulate(ToParams(run.goal.space, values), i)
  {
    GridRunCoversTheGrid(run);
    GridAxes(run.goal.space, run.limits.maxEvaluations);
    PointsAreTheProduct(AxesFor(run), values);
    var index: nat :| index < Total(AxesFor(run)) && PointValues(AxesFor(run), index) == values;
    assert Visits(run, Uninterrupted(run).0[index], index);
  }
}
