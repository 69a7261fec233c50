/** The no-improvement detector, judged against the incumbent it is meant to watch. */
module Stagnation {
  import opened Domain
  import opened History
  import opened Loop
  import opened Persistence
  import opened Durability
  import opened Workers

  function Evaluated(history: seq<Episode>): seq<Episode> {
    if history == [] then []
    else
      var before := Evaluated(history[..|history| - 1]);
      if history[|history| - 1].outcome.Measured? then before + [history[|history| - 1]] else before
  }

  /** The detector's test: enough evaluations, none of the last `window` of them an improvement. */
  predicate NoImprovement(window: nat, history: seq<Episode>) {
    var evaluated := Evaluated(history);
    && |evaluated| >= window
    && forall i | |evaluated| - window <= i < |evaluated| :: !evaluated[i].evaluation.improved
  }

  datatype Verdict = Verdict(stuck: bool, detector: nat)

  type Detector = (seq<Episode>, Goal) -> bool

  /** The first detector to fire wins. */
  method CheckAll(detectors: seq<Detector>, history: seq<Episode>, goal: Goal) returns (verdict: Verdict)
    ensures verdict.stuck <==> exists k :: 0 <= k < |detectors| && detectors[k](history, goal)
    ensures verdict.stuck ==>
              && verdict.detector < |detectors| && detectors[verdict.detector](history, goal)
              && forall k | 0 <= k < verdict.detector :: !detectors[k](history, goal)
  {
    for k := 0 to |detectors|
      invariant forall j | 0 <= j < k :: !detectors[j](history, goal)
    {
      if detectors[k](history, goal) {
        return Verdict(true, k);
      }
    }
    verdict := Verdict(false, 0);
  }

  /** Every episode's `improved` flag was computed against the incumbent of the episodes before it. */
  ghost predicate WellGraded(history: seq<Episode>, objective: Objective) {
    forall i | 0 <= i < |history| ::
      history[i].evaluation.improved <==>
        history[i].outcome.Measured? && BetterThan(history[i].outcome.result, BestOf(history[..i], objective), objective)
  }

  /** A turn taken from a well-graded history, whatever is carried and found on record, grades well. */
  lemma {:induction false} TurnGradesWell(run: Run, history: seq<Episode>, carried: Cost, keys: set<string>)
    requires ValidSpace(run.goal.space) && WellGraded(history, run.goal.objective)
    requires Next(run, history, carried, keys).Record?
    ensures WellGraded(history + [Next(run, history, carried, keys).episode], run.goal.objective)
  {
    var grown := history + [Next(run, history, carried, keys).episode];
    forall i | 0 <= i < |grown|
      ensures grown[i].evaluation.improved <==>
        grown[i].outcome.Measured? && BetterThan(grown[i].outcome.result, BestOf(grown[..i], run.goal.objective), run.goal.objective)
    {
      assert i < |history| ==> grown[i] == history[i] && grown[..i] == history[..i];
      assert i == |history| ==> grown[..i] == history;
    }
  }

  /** Whatever any number of workers do, the recorded history is well graded. */
  lemma {:induction false} RecordedHistoriesAreWellGraded(run: Run, world: World, actions: seq<Action>) returns (history: seq<Episode>)
    requires ValidSpace(run.goal.space) && Initial(run, world)
    ensures Consistent(run, After(run, world, actions), history)
    ensures WellGraded(history, run.goal.objective)
  {
    if actions == [] {
      history := [];
      assert TableOf([]) == map[];
    } else {
      var n := |actions| - 1;
      var before := RecordedHistoriesAreWellGraded(run, world, actions[..n]);
      var grown, carried, seen := StepKeepsConsistency(run, After(run, world, actions[..n]), actions[n], before);
      history := grown;
      if grown != before {
        TurnGradesWell(run, before, carried, seen);
      }
    }
  }

  /** So is the uninterrupted run. */
  lemma {:induction false} LoopHistoriesAreWellGraded(run: Run, n: nat)
    requires ValidSpace(run.goal.space) && n <= |Uninterrupted(run).0|
    ensures WellGraded(Uninterrupted(run).0[..n], run.goal.objective) && Contiguous(Uninterrupted(run).0[..n])
  {
    WholeIsContiguous(run, n);
    if n > 0 {
      var before := Uninterrupted(run).0[..n - 1];
      LoopHistoriesAreWellGraded(run, n - 1);
      TurnOfWhole(run, n - 1);
      TurnGradesWell(run, before, Carried(0, before), AskedBy(run, before));
      assert Uninterrupted(run).0[..n] == before + [Uninterrupted(run).0[n - 1]];
    }
  }

  /** The incumbent is the last evaluated episode flagged as an improvement. */
  lemma {:induction false} IncumbentIsLastImprovement(history: seq<Episode>, objective: Objective) returns (p: nat)
    requires WellGraded(history, objective)
    ensures BestOf(history, objective).None? <==> Evaluated(history) == []
    ensures Evaluated(history) != [] ==>
              && p < |Evaluated(history)|
              && Evaluated(history)[p].outcome.Measured? && Evaluated(history)[p].evaluation.improved
              && BestOf(history, objective) == Some(AsBest(Evaluated(history)[p]))
              && forall q | p < q < |Evaluated(history)| :: !Evaluated(history)[q].evaluation.improved
  {
    p := 0;
    if history != [] {
      var n := |history| - 1;
      assert forall i | 0 <= i < n :: history[..n][i] == history[i] && history[..n][..i] == history[..i];
      p := IncumbentIsLastImprovement(history[..n], objective);
      if history[n].outcome.Measured? && history[n].evaluation.improved {
        p := |Evaluated(history)| - 1;
      }
    }
  }

  lemma {:induction false} EvaluatedKeepsOrder(history: seq<Episode>)
    requires Contiguous(history)
    ensures forall i | 0 <= i < |Evaluated(history)| :: Evaluated(history)[i].idx < |history|
    ensures forall i, j | 0 <= i < j < |Evaluated(history)| :: Evaluated(history)[i].idx < Evaluated(history)[j].idx
    ensures |Evaluated(history)| == Evaluations(history)
  {
    if history != [] {
      EvaluatedKeepsOrder(history[..|history| - 1]);
    }
  }

  /** The incumbent is one of the last `window` evaluated episodes. */
  predicate IncumbentIsRecent(window: nat, history: seq<Episode>, objective: Objective) {
    var evaluated := Evaluated(history);
    exists i :: |evaluated| - window <= i < |evaluated| && 0 <= i && BestOf(history, objective).Some? &&
                BestOf(history, objective).value.episodeIdx == evaluated[i].idx
  }

  /** On well-graded histories the detector fires exactly when there were at least `window`
      evaluations and the incumbent is none of the last `window`; so never at exactly `window`. */
  lemma {:induction false} FiresExactlyWhenIncumbentIsOld(window: nat, history: seq<Episode>, objective: Objective)
    requires window >= 1 && WellGraded(history, objective) && Contiguous(history)
    ensures NoImprovement(window, history) <==>
            Evaluations(history) >= window && !IncumbentIsRecent(window, history, objective)
    ensures NoImprovement(window, history) ==> Evaluations(history) > window
  {
    EvaluatedKeepsOrder(history);
    var p := IncumbentIsLastImprovement(history, objective);
    var evaluated := Evaluated(history);
    if evaluated != [] {
      assert BestOf(history, objective).value.episodeIdx == evaluated[p].idx;
      forall i | 0 <= i < |evaluated| && evaluated[i].idx == evaluated[p].idx ensures i == p {
      }
    }
  }

  /** The run stops when some window fires. */
  ghost predicate UsesWindows(run: Run, windows: seq<nat>) {
    && (forall k | 0 <= k < |windows| :: windows[k] >= 1)
    && forall h: seq<Episode>, g: Goal :: run.stuck(h, g) <==> exists k :: 0 <= k < |windows| && NoImprovement(windows[k], h)
  }

  /** With such detectors the loop stops for stagnation exactly when nothing tested before them stops it and
      the incumbent has left some window of evaluations. */
  lemma {:induction false} StagnatesExactlyWhen(run: Run, windows: seq<nat>, history: seq<Episode>, carried: Cost, keys: set<string>)
    requires ValidSpace(run.goal.space) && UsesWindows(run, windows)
    requires WellGraded(history, run.goal.objective) && Contiguous(history)
    ensures var state := StateOf(run, history, Executing);
            Next(run, history, carried, keys) == Stop(Stagnation) <==>
              && !state.budget.Exhausted() && !state.budget.RejectionsExceeded() && !GoalSatisfied(state.best, run.goal)
              && exists k :: 0 <= k < |windows| && Evaluations(history) >= windows[k]
                             && !IncumbentIsRecent(windows[k], history, run.goal.objective)
  {
    forall k | 0 <= k < |windows|
      ensures NoImprovement(windows[k], history) <==>
              Evaluations(history) >= windows[k] && !IncumbentIsRecent(windows[k], history, run.goal.objective)
    {
      FiresExactlyWhenIncumbentIsOld(windows[k], history, run.goal.objective);
    }
  }

  /** A rejected proposal never changes the verdict. */
  lemma {:induction false} RejectionsNeverMatter(window: nat, before: seq<Episode>, rejection: Episode, after: seq<Episode>)
    requires rejection.outcome.Errored?
    ensures NoImprovement(window, before + [rejection] + after) <==> NoImprovement(window, before + after)
  {
    EvaluatedConcat(before + [rejection], after);
    EvaluatedConcat(before, after);
    assert (before + [rejection])[..|before|] == before;
  }

  lemma {:induction false} EvaluatedConcat(left: seq<Episode>, right: seq<Episode>)
    ensures Evaluated(left + right) == Evaluated(left) + Evaluated(right)
  {
    if right == [] {
      assert left + right == left;
    } else {
      assert (left + right)[..|left + right| - 1] == left + right[..|right| - 1];
      EvaluatedConcat(left, right[..|right| - 1]);
    }
  }
}
