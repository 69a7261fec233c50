/** Facts about every history the loop can produce, and when resuming is invisible. */
module Durability {
  import opened Domain
  import opened History
  import opened Guard
  import opened Persistence
  import opened Loop

  /** The episodes and the reason of a run nobody interrupts, from nothing recorded. */
  function Uninterrupted(run: Run): (seq<Episode>, Reason)
    requires ValidSpace(run.goal.space)
  {
    Complete(run, [], ZERO_COST, {})
  }

  /** The calls on record behind a history. */
  function AskedBy(run: Run, history: seq<Episode>): set<string> {
    AskedSince(run, history, 0)
  }

  /** Episode `i` is the turn taken from the episodes before it, `base` of which were loaded. */
  ghost predicate TurnAt(run: Run, all: seq<Episode>, base: nat, carried: Cost, keys: set<string>, i: nat)
    requires ValidSpace(run.goal.space) && base <= i < |all|
  {
    Next(run, all[..i], if i == base then carried else all[i - 1].cost, keys + AskedSince(run, all[..i], base)) == Record(all[i])
  }

  /** The calls on record are those behind the recorded history, and perhaps the next one. */
  predicate Behind(run: Run, history: seq<Episode>, keys: set<string>) {
    AskedBy(run, history) <= keys <= AskedBy(run, history) + AskedAfter(run, history)
  }

  lemma {:induction false} AskedIncluded(run: Run, history: seq<Episode>, m: nat)
    requires m <= |history|
    ensures AskedBy(run, history[..m]) <= AskedBy(run, history)
    ensures m < |history| ==> AskedAfter(run, history[..m]) <= AskedBy(run, history)
  {
    if m == |history| {
      assert history[..m] == history;
    } else {
      var n := |history| - 1;
      assert history[..n][..m] == history[..m];
      AskedIncluded(run, history[..n], m);
    }
  }

  lemma {:induction false} AskedSinceOneLater(run: Run, history: seq<Episode>, base: nat)
    requires base < |history|
    ensures AskedSince(run, history, base) == AskedAfter(run, history[..base]) + AskedSince(run, history, base + 1)
  {
    var n := |history| - 1;
    if base < n {
      AskedSinceOneLater(run, history[..n], base);
      assert history[..n][..base] == history[..base];
    }
  }

  lemma {:induction false} TurnAtOneEarlier(run: Run, all: seq<Episode>, base: nat, carried: Cost, keys: set<string>, i: nat)
    requires ValidSpace(run.goal.space) && base < i < |all|
    requires TurnAt(run, all, base + 1, all[base].cost, keys + AskedAfter(run, all[..base]), i)
    ensures TurnAt(run, all, base, carried, keys, i)
  {
    AskedSinceOneLater(run, all[..i], base);
    assert all[..i][..base] == all[..base];
    assert keys + AskedSince(run, all[..i], base) == keys + AskedAfter(run, all[..base]) + AskedSince(run, all[..i], base + 1);
  }

  /** Every episode added is the turn taken from the history before it, and the end is a stop. */
  lemma {:induction false} CompleteTurns(run: Run, history: seq<Episode>, carried: Cost, keys: set<string>)
    requires ValidSpace(run.goal.space)
    ensures history <= Complete(run, history, carried, keys).0
    ensures forall i | |history| <= i < |Complete(run, history, carried, keys).0| ::
              TurnAt(run, Complete(run, history, carried, keys).0, |history|, carried, keys, i)
    ensures forall any: Cost, known: set<string> ::
              Next(run, Complete(run, history, carried, keys).0, any, known) == Stop(Complete(run, history, carried, keys).1)
    decreases Allowance(run, history)
  {
    match Next(run, history, carried, keys)
    case Stop(reason) =>
    case Record(episode) =>
      NextSpends(run, history, carried, keys);
      var later := keys + AskedAfter(run, history);
      CompleteTurns(run, history + [episode], episode.cost, later);
      var all := Complete(run, history, carried, keys).0;
      assert all == Complete(run, history + [episode], episode.cost, later).0;
      assert history == all[..|history|] && all[|history|] == episode;
      forall i | |history| <= i < |all| ensures TurnAt(run, all, |history|, carried, keys, i) {
        if i > |history| {
          TurnAtOneEarlier(run, all, |history|, carried, keys, i);
        } else {
          assert keys + AskedSince(run, all[..i], |history|) == keys;
        }
      }
  }

  lemma {:induction false} TurnOfWhole(run: Run, i: nat)
    requires ValidSpace(run.goal.space) && i < |Uninterrupted(run).0|
    ensures Next(run, Uninterrupted(run).0[..i], Carried(0, Uninterrupted(run).0[..i]), AskedBy(run, Uninterrupted(run).0[..i]))
         == Record(Uninterrupted(run).0[i])
    ensures Uninterrupted(run).0[i].idx == NextIndex(Uninterrupted(run).0[..i])
  {
    CompleteTurns(run, [], ZERO_COST, {});
    var all := Uninterrupted(run).0;
    var before := all[..i];
    assert TurnAt(run, all, 0, ZERO_COST, {}, i);
    assert Carried(0, before) == if i == 0 then ZERO_COST else all[i - 1].cost;
    assert {} + AskedBy(run, before) == AskedBy(run, before);
    NextSpends(run, before, Carried(0, before), AskedBy(run, before));
  }

  lemma {:induction false} WholeIsContiguous(run: Run, n: nat)
    requires ValidSpace(run.goal.space) && n <= |Uninterrupted(run).0|
    ensures Contiguous(Uninterrupted(run).0[..n])
  {
    if n > 0 {
      WholeIsContiguous(run, n - 1);
      ContiguousNextIndex(Uninterrupted(run).0[..n - 1]);
      TurnOfWhole(run, n - 1);
      assert forall i | 0 <= i < n - 1 :: Uninterrupted(run).0[..n][i] == Uninterrupted(run).0[..n - 1][i];
    }
  }

  // ---------------------------------------------------------------- budgets are respected

  function Evaluations(history: seq<Episode>): nat {
    if history == [] then 0
    else Evaluations(history[..|history| - 1]) + if history[|history| - 1].outcome.Measured? then 1 else 0
  }

  lemma {:induction false} CountersCount(budget: Budget, history: seq<Episode>)
    ensures BudgetOf(budget, history).evaluationsUsed == Evaluations(history)
    ensures BudgetOf(budget, history).rejectionsUsed == |history| - Evaluations(history)
    ensures BudgetOf(budget, history).Unspent() == budget.Unspent()
  {
    if history != [] {
      CountersCount(budget, history[..|history| - 1]);
    }
  }

  /** A turn is only taken while every allowance is unspent, the target unmet and no detector firing. */
  lemma {:induction false} TurnNeedsAllowance(run: Run, history: seq<Episode>, carried: Cost, keys: set<string>)
    requires ValidSpace(run.goal.space) && Next(run, history, carried, keys).Record?
    ensures Evaluations(history) < run.limits.maxEvaluations
    ensures |history| - Evaluations(history) < run.limits.maxRejections
    ensures BudgetOf(run.limits, history).costUsed < run.limits.maxCost
    ensures BudgetOf(run.limits, history).wallClockUsed < run.limits.maxWallClock
    ensures !GoalSatisfied(BestOf(history, run.goal.objective), run.goal) && !run.stuck(history, run.goal)
  {
    CountersCount(run.limits, history);
    assert HeadReason(run, StateOf(run, history, Executing)).None?;
  }

  /** What a stop on the budget or on the rejections says. */
  lemma {:induction false} StopMeans(run: Run, history: seq<Episode>, carried: Cost, keys: set<string>, reason: Reason)
    requires ValidSpace(run.goal.space) && Next(run, history, carried, keys) == Stop(reason)
    ensures reason != Error
    ensures reason == BudgetSpent ==>
              || Evaluations(history) >= run.limits.maxEvaluations
              || BudgetOf(run.limits, history).costUsed >= run.limits.maxCost
              || BudgetOf(run.limits, history).wallClockUsed >= run.limits.maxWallClock
    ensures reason == Rejections ==> |history| - Evaluations(history) >= run.limits.maxRejections
  {
    CountersCount(run.limits, history);
  }

  /** An uninterrupted run never spends more than its allowances; stopping on the evaluation count
      means exactly that many simulator results. */
  lemma {:induction false} WholeRespectsBudget(run: Run)
    requires ValidRun(run)
    ensures var (history, reason) := Uninterrupted(run);
            && Evaluations(history) <= run.limits.maxEvaluations
            && |history| - Evaluations(history) <= run.limits.maxRejections
            && |history| <= run.limits.maxEvaluations + run.limits.maxRejections - 1
            && reason != Error
            && (reason == BudgetSpent ==>
                  || Evaluations(history) == run.limits.maxEvaluations
                  || BudgetOf(run.limits, history).costUsed >= run.limits.maxCost
                  || BudgetOf(run.limits, history).wallClockUsed >= run.limits.maxWallClock)
            && (reason == Rejections ==> |history| - Evaluations(history) == run.limits.maxRejections)
  {
    var (history, reason) := Uninterrupted(run);
    CompleteTurns(run, [], ZERO_COST, {});
    StopMeans(run, history, ZERO_COST, {}, reason);
    if history != [] {
      var n := |history| - 1;
      TurnOfWhole(run, n);
      TurnNeedsAllowance(run, history[..n], Carried(0, history[..n]), AskedBy(run, history[..n]));
    }
  }

  // ---------------------------------------------------------------- only conforming points are simulated

  /** What the guard promises of an episode: its point was simulated and conforms, or was refused, or
      there was no proposal at all. */
  ghost predicate PassedTheGuard(run: Run, episode: Episode) {
    || (Conforms(episode.candidate.params, run.goal.space) && episode.outcome == run.simulate(episode.candidate.params, episode.idx))
    || (episode.outcome == Errored("GuardRejection", false) && Validated(episode.candidate, run.goal.space, run.read).Refused?)
    || (episode.candidate == Candidate(map[], Planner) && exists kind :: episode.outcome == Errored(kind, true))
  }

  /** From any history whatever, every point a turn simulates has exactly the declared names, each in
      kind and in bounds. */
  lemma {:induction false} EveryTurnIsGuarded(run: Run, history: seq<Episode>, carried: Cost, keys: set<string>)
    requires ValidSpace(run.goal.space) && HasIntegers(run.goal.space)
    requires Next(run, history, carried, keys).Record?
    ensures PassedTheGuard(run, Next(run, history, carried, keys).episode)
  {
    var episode := Next(run, history, carried, keys).episode;
    match Ask(run, StateOf(run, history, Executing))
    case NothingLeft =>
    case ProviderFailed(kind) =>
      assert episode.outcome == Errored(kind, true);
    case Proposed(candidate) =>
      match Validated(candidate, run.goal.space, run.read)
      case Refused(_) =>
      case Passed(cleaned, _, _) =>
        ValidatedConforms(candidate, run.goal.space, run.read);
        MovedConforms(run.goal.space, cleaned.params, run.nudges(run.seed, NextIndex(history), run.goal.space, cleaned.params));
  }

  /** So only conforming points are simulated, at their own index. */
  lemma {:induction false} SimulatedPointsConform(run: Run, i: nat)
    requires ValidRun(run) && HasIntegers(run.goal.space) && i < |Uninterrupted(run).0|
    ensures PassedTheGuard(run, Uninterrupted(run).0[i]) && Uninterrupted(run).0[i].idx == i
  {
    TurnOfWhole(run, i);
    WholeIsContiguous(run, |Uninterrupted(run).0|);
    assert Uninterrupted(run).0[..|Uninterrupted(run).0|] == Uninterrupted(run).0;
    EveryTurnIsGuarded(run, Uninterrupted(run).0[..i], Carried(0, Uninterrupted(run).0[..i]), AskedBy(run, Uninterrupted(run).0[..i]));
  }

  // ---------------------------------------------------------------- costs decide nothing

  /** The strategy and the detectors do not look at costs, and no answer is charged in euros. */
  ghost predicate CostsDecideNothing(run: Run) {
    && (forall g: Goal, n: nat, h: seq<Episode>, s: int, i: nat ::
          run.propose(g, n, WithoutCosts(h), s, i) == run.propose(g, n, h, s, i))
    && (forall g: Goal, n: nat, h: seq<Episode>, s: int, i: nat ::
          run.prompt(g, n, WithoutCosts(h), s, i) == run.prompt(g, n, h, s, i))
    && (forall h: seq<Episode>, g: Goal :: run.stuck(WithoutCosts(h), g) == run.stuck(h, g))
    && (forall key :: run.answer(key).cost.eur == 0.0)
  }

  /** Two turns that agree in everything but the cost recorded. */
  ghost predicate SameStep(left: Step, right: Step) {
    match left
    case Stop(reason) => right == left
    case Record(episode) =>
      && right.Record? && WithoutCost(right.episode) == WithoutCost(episode)
      && episode.cost.eur == 0.0 == right.episode.cost.eur
  }

  lemma {:induction false} DuplicatesUpToCost(candidate: Candidate, history: seq<Episode>)
    ensures Duplicates(candidate, WithoutCosts(history)) <==> Duplicates(candidate, history)
  {
    var bare := WithoutCosts(history);
    assert forall i | 0 <= i < |history| ::
        bare[i].outcome == history[i].outcome && bare[i].candidate == history[i].candidate;
  }

  /** What a proposal leads to does not depend on what the episodes before it cost. */
  lemma {:induction false} BareEpisode(run: Run, history: seq<Episode>, proposal: Proposal, cost: Cost, other: Cost)
    requires ValidSpace(run.goal.space) && !proposal.NothingLeft?
    ensures WithoutCost(EpisodeFor(run, StateOf(run, WithoutCosts(history), Executing), proposal, other))
         == WithoutCost(EpisodeFor(run, StateOf(run, history, Executing), proposal, cost))
  {
    CostsDoNotMatter(history, run.goal.objective, run.limits);
    if proposal.Proposed? {
      match Validated(proposal.candidate, run.goal.space, run.read)
      case Refused(_) =>
      case Passed(cleaned, _, _) => DuplicatesUpToCost(cleaned, history);
    }
  }

  lemma {:induction false} SameEpisode(
      run: Run, left: seq<Episode>, right: seq<Episode>, proposal: Proposal, cost: Cost, other: Cost)
    requires ValidSpace(run.goal.space) && !proposal.NothingLeft? && SameUpToCost(left, right)
    ensures WithoutCost(EpisodeFor(run, StateOf(run, left, Executing), proposal, cost))
         == WithoutCost(EpisodeFor(run, StateOf(run, right, Executing), proposal, other))
  {
    BareEpisode(run, left, proposal, cost, ZERO_COST);
    BareEpisode(run, right, proposal, other, ZERO_COST);
  }

  /** What a turn sees of a history is the same without its costs. */
  lemma {:induction false} BareNext(run: Run, history: seq<Episode>, carried: Cost, keys: set<string>, known: set<string>)
    requires ValidSpace(run.goal.space) && CostsDecideNothing(run) && NoEuros(history) && carried.eur == 0.0
    ensures SameStep(Next(run, WithoutCosts(history), ZERO_COST, known), Next(run, history, carried, keys))
    ensures AskedAfter(run, WithoutCosts(history)) == AskedAfter(run, history)
  {
    var bare := WithoutCosts(history);
    CostsDoNotMatter(history, run.goal.objective, run.limits);
    var state, plain := StateOf(run, history, Executing), StateOf(run, bare, Executing);
    assert plain == state.(history := bare);
    assert HeadReason(run, plain) == HeadReason(run, state);
    assert Ask(run, plain) == Ask(run, state) && Prompt(run, plain) == Prompt(run, state);
    if !Ask(run, state).NothingLeft? {
      BareEpisode(run, history, Ask(run, state), Reported(run, state, carried, keys), Reported(run, plain, ZERO_COST, known));
    }
  }

  /** Histories equal up to cost lead to turns equal up to cost, whatever cost is carried and whichever
      calls are on record. */
  lemma {:induction false} SameNext(
      run: Run, left: seq<Episode>, right: seq<Episode>, carried: Cost, carried': Cost, keys: set<string>, keys': set<string>)
    requires ValidSpace(run.goal.space) && CostsDecideNothing(run)
    requires SameUpToCost(left, right) && NoEuros(left) && NoEuros(right) && carried.eur == 0.0 == carried'.eur
    ensures SameStep(Next(run, left, carried, keys), Next(run, right, carried', keys'))
    ensures AskedAfter(run, left) == AskedAfter(run, right)
  {
    BareNext(run, left, carried, keys, {});
    BareNext(run, right, carried', keys', {});
  }

  lemma {:induction false} SameSnoc(left: seq<Episode>, right: seq<Episode>, one: Episode, other: Episode)
    requires SameUpToCost(left, right) && NoEuros(left) && NoEuros(right)
    requires WithoutCost(one) == WithoutCost(other) && one.cost.eur == 0.0 == other.cost.eur
    ensures SameUpToCost(left + [one], right + [other]) && NoEuros(left + [one]) && NoEuros(right + [other])
  {
    WithoutCostsSnoc(left, one);
    WithoutCostsSnoc(right, other);
  }

  /** So they lead to runs equal up to cost, that stop for the same reason. */
  lemma {:induction false} SameComplete(
      run: Run, left: seq<Episode>, right: seq<Episode>, carried: Cost, carried': Cost, keys: set<string>, keys': set<string>)
    requires ValidSpace(run.goal.space) && CostsDecideNothing(run)
    requires SameUpToCost(left, right) && NoEuros(left) && NoEuros(right) && carried.eur == 0.0 == carried'.eur
    ensures var one, other := Complete(run, left, carried, keys), Complete(run, right, carried', keys');
            SameUpToCost(one.0, other.0) && one.1 == other.1 && NoEuros(one.0) && NoEuros(other.0)
    decreases Allowance(run, left)
  {
    SameNext(run, left, right, carried, carried', keys, keys');
    if Next(run, left, carried, keys).Record? {
      var one, other := Next(run, left, carried, keys).episode, Next(run, right, carried', keys').episode;
      NextSpends(run, left, carried, keys);
      CompleteFromNext(run, left, carried, keys);
      CompleteFromNext(run, right, carried', keys');
      SameSnoc(left, right, one, other);
      SameComplete(run, left + [one], right + [other], one.cost, other.cost,
                   keys + AskedAfter(run, left), keys' + AskedAfter(run, right));
    }
  }

  // ---------------------------------------------------------------- along the uninterrupted run

  lemma {:induction false} OneFurther(run: Run, all: seq<Episode>, n: nat)
    requires n < |all|
    ensures all[..n] + [all[n]] == all[..n + 1]
    ensures AskedBy(run, all[..n + 1]) == AskedBy(run, all[..n]) + AskedAfter(run, all[..n])
    ensures Carried(0, all[..n + 1]) == all[n].cost
  {
    assert all[..n + 1][..n] == all[..n];
  }

  lemma {:induction false} WholeContinues(run: Run, n: nat)
    requires ValidSpace(run.goal.space) && n <= |Uninterrupted(run).0|
    ensures var before := Uninterrupted(run).0[..n];
            Complete(run, before, Carried(0, before), AskedBy(run, before)) == Uninterrupted(run)
  {
    var all := Uninterrupted(run).0;
    if n == 0 {
      assert all[..n] == [];
    } else {
      WholeContinues(run, n - 1);
      TurnOfWhole(run, n - 1);
      CompleteFromNext(run, all[..n - 1], Carried(0, all[..n - 1]), AskedBy(run, all[..n - 1]));
      OneFurther(run, all, n - 1);
    }
  }

  lemma {:induction false} WholeCostsNoEuros(run: Run)
    requires ValidSpace(run.goal.space) && CostsDecideNothing(run)
    ensures NoEuros(Uninterrupted(run).0)
  {
    SameComplete(run, [], [], ZERO_COST, ZERO_COST, {}, {});
  }

  /** A process standing on episodes that are the first `n` of the run up to cost, whatever it carries and
      finds on record, takes the turn of the run up to cost, and ends with the run up to cost. */
  lemma {:induction false} AlongTheWhole(run: Run, n: nat, history: seq<Episode>, carried: Cost, keys: set<string>)
    requires ValidSpace(run.goal.space) && CostsDecideNothing(run) && n <= |Uninterrupted(run).0|
    requires SameUpToCost(history, Uninterrupted(run).0[..n]) && NoEuros(history) && carried.eur == 0.0
    ensures var whole := Uninterrupted(run);
            SameStep(if n < |whole.0| then Record(whole.0[n]) else Stop(whole.1), Next(run, history, carried, keys))
    ensures AskedAfter(run, history) == AskedAfter(run, Uninterrupted(run).0[..n])
    ensures SameUpToCost(Complete(run, history, carried, keys).0, Uninterrupted(run).0)
    ensures Complete(run, history, carried, keys).1 == Uninterrupted(run).1
    ensures NoEuros(Complete(run, history, carried, keys).0)
  {
    var whole := Uninterrupted(run).0;
    var before := whole[..n];
    WholeCostsNoEuros(run);
    WholeContinues(run, n);
    SameNext(run, before, history, Carried(0, before), carried, AskedBy(run, before), keys);
    SameComplete(run, before, history, Carried(0, before), carried, AskedBy(run, before), keys);
    if n < |whole| {
      TurnOfWhole(run, n);
    } else {
      CompleteTurns(run, [], ZERO_COST, {});
      assert before == whole;
    }
  }

  /** The history is that of the uninterrupted run as far as it goes, up to cost. */
  ghost predicate PrefixUpToCost(run: Run, history: seq<Episode>)
    requires ValidSpace(run.goal.space)
  {
    && |history| <= |Uninterrupted(run).0|
    && SameUpToCost(history, Uninterrupted(run).0[..|history|])
    && NoEuros(history)
  }

  // ---------------------------------------------------------------- when resuming leaves no trace

  function AskAt(run: Run, history: seq<Episode>): Proposal {
    Ask(run, StateOf(run, history, Executing))
  }

  function PromptAt(run: Run, history: seq<Episode>): Option<string> {
    Prompt(run, StateOf(run, history, Executing))
  }

  /** The next proposal fails, under a cost left over from the episode before. */
  predicate LosesCarry(run: Run, n: nat)
    requires ValidSpace(run.goal.space)
  {
    var whole := Uninterrupted(run).0;
    0 < n < |whole| && AskAt(run, whole[..n]).ProviderFailed? && whole[n - 1].cost != ZERO_COST
  }

  /** The next proposal makes a call not yet on record, and replaying it would be reported differently. */
  predicate LosesCharge(run: Run, n: nat)
    requires ValidSpace(run.goal.space)
  {
    var whole := Uninterrupted(run).0;
    && n < |whole| && !AskAt(run, whole[..n]).ProviderFailed?
    && match PromptAt(run, whole[..n])
       case None => false
       case Some(key) => key !in AskedBy(run, whole[..n]) && run.answer(key).cost != ReplayCost(Answered(run, key))
  }

  /** Cost is all that the carried cost and the calls on record decide of a turn. */
  lemma {:induction false} TurnUpToCost(run: Run, history: seq<Episode>, carried: Cost, carried': Cost, keys: set<string>, keys': set<string>)
    requires ValidSpace(run.goal.space)
    ensures match Next(run, history, carried, keys)
            case Stop(reason) => Next(run, history, carried', keys') == Stop(reason)
            case Record(episode) =>
              var cost := Reported(run, StateOf(run, history, Executing), carried', keys');
              Next(run, history, carried', keys') == Record(episode.(cost := cost))
  {
  }

  /** The exact turn of the run is taken by a process that carries the run's cost or need not, and that
      finds the run's calls or one more that does not show. */
  lemma {:induction false} PrefixTurn(run: Run, n: nat, carried: Cost, keys: set<string>)
    requires ValidSpace(run.goal.space) && n <= |Uninterrupted(run).0| && Behind(run, Uninterrupted(run).0[..n], keys)
    requires carried == Carried(0, Uninterrupted(run).0[..n]) || (carried == ZERO_COST && !LosesCarry(run, n))
    requires keys == AskedBy(run, Uninterrupted(run).0[..n]) || !LosesCharge(run, n)
    ensures Next(run, Uninterrupted(run).0[..n], carried, keys) ==
            if n < |Uninterrupted(run).0| then Record(Uninterrupted(run).0[n]) else Stop(Uninterrupted(run).1)
  {
    var whole := Uninterrupted(run).0;
    var before := whole[..n];
    if n == |whole| {
      CompleteTurns(run, [], ZERO_COST, {});
      assert before == whole;
    } else {
      TurnOfWhole(run, n);
      TurnUpToCost(run, before, Carried(0, before), carried, AskedBy(run, before), keys);
    }
  }

  /** What a fresh process ends with when it resumes behind `n` episodes, `noted` telling whether the call
      for the next one had been recorded when the last process died. */
  function Resumed(run: Run, n: nat, noted: bool): (seq<Episode>, Reason)
    requires ValidSpace(run.goal.space) && n <= |Uninterrupted(run).0|
  {
    var before := Uninterrupted(run).0[..n];
    Complete(run, before, ZERO_COST, if noted then AskedBy(run, before) + AskedAfter(run, before) else AskedBy(run, before))
  }

  lemma {:induction false} ResumesAlong(run: Run, n: nat, noted: bool)
    requires ValidSpace(run.goal.space) && n <= |Uninterrupted(run).0|
    requires !LosesCarry(run, n) && !(noted && LosesCharge(run, n))
    ensures Resumed(run, n, noted) == Uninterrupted(run)
  {
    var whole := Uninterrupted(run).0;
    var before := whole[..n];
    var keys := if noted then AskedBy(run, before) + AskedAfter(run, before) else AskedBy(run, before);
    PrefixTurn(run, n, ZERO_COST, keys);
    if n < |whole| {
      CompleteFromNext(run, before, ZERO_COST, keys);
      WholeContinues(run, n + 1);
      OneFurther(run, whole, n);
      assert keys + AskedAfter(run, before) == AskedBy(run, whole[..n + 1]);
    } else {
      assert before == whole;
    }
  }

  lemma {:induction false} ResumesAstray(run: Run, n: nat, noted: bool)
    requires ValidSpace(run.goal.space) && n < |Uninterrupted(run).0|
    requires LosesCarry(run, n) || (noted && LosesCharge(run, n))
    ensures Resumed(run, n, noted) != Uninterrupted(run)
  {
    var whole := Uninterrupted(run).0;
    var before := whole[..n];
    var keys := if noted then AskedBy(run, before) + AskedAfter(run, before) else AskedBy(run, before);
    TurnOfWhole(run, n);
    TurnUpToCost(run, before, Carried(0, before), ZERO_COST, AskedBy(run, before), keys);
    CompleteFromNext(run, before, ZERO_COST, keys);
    var resumed := Resumed(run, n, noted).0;
    CompleteTurns(run, before + [Next(run, before, ZERO_COST, keys).episode],
                  Next(run, before, ZERO_COST, keys).episode.cost, keys + AskedAfter(run, before));
    assert resumed[n] == Next(run, before, ZERO_COST, keys).episode;
  }

  /** There are only two possibilities for the calls on record. */
  lemma {:induction false} BehindIsNotedOrNot(run: Run, history: seq<Episode>, keys: set<string>)
    requires Behind(run, history, keys)
    ensures keys == AskedBy(run, history) || keys == AskedBy(run, history) + AskedAfter(run, history)
  {
    if key :| key in keys && key !in AskedBy(run, history) {
      assert AskedAfter(run, history) == {key};
    }
  }

  /** At each crash point: resuming gives the same run, costs included, if and only if neither is the next
      proposal a failure charged to the episode before, nor was its fresh call recorded and would show. */
  lemma {:induction false} ResumeIsInvisibleExactlyWhen(run: Run, n: nat, noted: bool)
    requires ValidSpace(run.goal.space) && n <= |Uninterrupted(run).0|
    ensures Resumed(run, n, noted) == Uninterrupted(run) <==> !LosesCarry(run, n) && !(noted && LosesCharge(run, n))
  {
    if !LosesCarry(run, n) && !(noted && LosesCharge(run, n)) {
      ResumesAlong(run, n, noted);
    } else {
      ResumesAstray(run, n, noted);
    }
  }

  /** Resuming gives the same run up to cost at every crash point, for the same reason. */
  lemma {:induction false} ResumeIsInvisibleUpToCost(run: Run, n: nat, noted: bool)
    requires ValidSpace(run.goal.space) && CostsDecideNothing(run) && n <= |Uninterrupted(run).0|
    ensures SameUpToCost(Resumed(run, n, noted).0, Uninterrupted(run).0)
    ensures Resumed(run, n, noted).1 == Uninterrupted(run).1
  {
    var before := Uninterrupted(run).0[..n];
    WholeCostsNoEuros(run);
    AlongTheWhole(run, n, before, ZERO_COST, if noted then AskedBy(run, before) + AskedAfter(run, before) else AskedBy(run, before));
  }

  /** No crash point shows in any cost. */
  ghost predicate Traceless(run: Run)
    requires ValidSpace(run.goal.space)
  {
    forall n: nat | n < |Uninterrupted(run).0| :: !LosesCarry(run, n) && !LosesCharge(run, n)
  }

  /** A strategy that calls no model is traceless; one that never fails loses no carried cost. */
  lemma {:induction false} TracelessStrategies(run: Run)
    requires ValidSpace(run.goal.space)
    ensures (forall g, n, h, s, i :: run.prompt(g, n, h, s, i).None?) ==> Traceless(run)
    ensures (forall g, n, h, s, i :: !run.propose(g, n, h, s, i).ProviderFailed?) ==>
              forall n: nat | n < |Uninterrupted(run).0| :: !LosesCarry(run, n)
  {
    if forall g, n, h, s, i :: run.prompt(g, n, h, s, i).None? {
      forall i: nat | i < |Uninterrupted(run).0| ensures Uninterrupted(run).0[i].cost == ZERO_COST {
        FreeEpisodes(run, i);
      }
    }
  }

  lemma {:induction false} FreeEpisodes(run: Run, i: nat)
    requires ValidSpace(run.goal.space) && i < |Uninterrupted(run).0|
    requires forall g, n, h, s, i :: run.prompt(g, n, h, s, i).None?
    ensures Uninterrupted(run).0[i].cost == ZERO_COST
  {
    TurnOfWhole(run, i);
    if i > 0 {
      FreeEpisodes(run, i - 1);
    }
  }

  /** A call that was paid for always shows: it loses its charge exactly when it was not on record. */
  lemma {:induction false} PaidCallsShow(run: Run, n: nat)
    requires ValidSpace(run.goal.space) && n < |Uninterrupted(run).0|
    requires forall key :: run.answer(key).cost.calls >= 1
    ensures LosesCharge(run, n) <==>
            exists key :: key in AskedAfter(run, Uninterrupted(run).0[..n]) && key !in AskedBy(run, Uninterrupted(run).0[..n])
  {
  }
}
