/** Recording and replaying model calls, and the single-shot strategy that depends on it.
    The model may answer differently every time it is asked. */
module Replay {
  import opened Domain
  import opened History
  import opened Guard
  import opened Persistence
  import opened Loop
  import opened Durability

  // ---------------------------------------------------------------- the caching router

  /** What the wrapped router does if it is asked now. */
  datatype Inner = Answered(plan: seq<Params>, cost: Cost) | Failing(kind: string)

  datatype Reply = Got(plan: seq<Params>, cost: Cost) | Raised(kind: string) | NotRecorded

  /** A replay is the recorded plan, for nothing but its tokens. */
  function Replayed(call: StoredCall): Reply {
    Got(call.plan, ReplayCost(call))
  }

  /** What a call comes to, and the record after it. */
  function Called(calls: Calls, offline: bool, key: string, inner: Inner): (Reply, Calls) {
    if key in calls then (Replayed(calls[key]), calls)
    else if offline then (NotRecorded, calls)
    else match inner
      case Failing(kind) => (Raised(kind), calls)
      case Answered(plan, cost) => (Got(plan, cost), Noted(calls, key, Stored(plan, cost)))
  }

  class CachingRouter {
    const store: Repository
    const runId: RunId
    const offline: bool
    var hits: nat
    var misses: nat

    constructor (store: Repository, runId: RunId, offline: bool)
      ensures this.store == store && this.runId == runId && this.offline == offline && hits == 0 && misses == 0
    {
      this.store, this.runId, this.offline := store, runId, offline;
      hits, misses := 0, 0;
    }

    /** Answer from the record, or ask once and record what was accepted. */
    method Complete(key: string, inner: Inner) returns (reply: Reply)
      modifies this, store`calls
      ensures (reply, store.Recorded(runId)) == Called(old(store.Recorded(runId)), offline, key, inner)
      ensures hits == old(hits) + if key in old(store.Recorded(runId)) then 1 else 0
      ensures misses == old(misses) + if key in old(store.Recorded(runId)) || offline then 0 else 1
      ensures store.calls - {runId} == old(store.calls) - {runId}
    {
      var cached := store.LoadCall(runId, key);
      if cached.Some? {
        hits := hits + 1;
        return Replayed(cached.value);
      }
      if offline {
        return NotRecorded;
      }
      misses := misses + 1;
      match inner
      case Failing(kind) =>
        reply := Raised(kind);
      case Answered(plan, cost) =>
        store.RecordCall(runId, key, Stored(plan, cost));
        reply := Got(plan, cost);
    }
  }

  // ---------------------------------------------------------------- the single-shot strategy

  /** A strategy that asks a model: the prompt it shows, which is its key, and what it makes of the reply. */
  datatype Asker = Asker(prompt: seq<Episode> -> string, serve: (seq<Episode>, seq<Params>) -> Proposal)
  {
    /** A reply is served or used up; only a call fails. */
    ghost predicate Valid() {
      forall h: seq<Episode>, plan: seq<Params> :: !serve(h, plan).ProviderFailed?
    }
  }

  /** The single-shot strategy: always the same prompt, and the next entry of the plan. */
  function OneShot(key: string): Asker {
    Asker((h: seq<Episode>) => key, (h: seq<Episode>, plan: seq<Params>) => Served(plan, h))
  }

  /** The proposal for the next index of a plan, or nothing left when the plan is shorter. */
  function Served(plan: seq<Params>, history: seq<Episode>): Proposal {
    if NextIndex(history) >= |plan| then NothingLeft else Proposed(Candidate(plan[NextIndex(history)], Planner))
  }

  /** What a proposal comes to, the record after it, and the cost the strategy then reports; None when an
      offline replay finds no record. */
  function Consulted(asker: Asker, calls: Calls, offline: bool, history: seq<Episode>, lastCost: Cost, inner: Inner):
    (Option<Proposal>, Calls, Cost)
  {
    var (reply, after) := Called(calls, offline, asker.prompt(history), inner);
    match reply
    case NotRecorded => (None, after, lastCost)
    case Raised(kind) => (Some(ProviderFailed(kind)), after, lastCost)
    case Got(plan, cost) => (Some(asker.serve(history, plan)), after, cost)
  }

  /** The strategy asks for its whole plan on every call and serves one entry. */
  class SingleShot {
    const router: CachingRouter
    const key: string
    var lastCost: Cost

    constructor (router: CachingRouter, key: string)
      ensures this.router == router && this.key == key && lastCost == ZERO_COST
    {
      this.router, this.key := router, key;
      lastCost := ZERO_COST;
    }

    method Propose(history: seq<Episode>, inner: Inner) returns (proposal: Option<Proposal>)
      modifies this, router, router.store`calls
      ensures (proposal, router.store.Recorded(router.runId), lastCost) ==
              Consulted(OneShot(key), old(router.store.Recorded(router.runId)), router.offline, history, old(lastCost), inner)
    {
      var reply := router.Complete(key, inner);
      match reply
      case NotRecorded =>
        proposal := None;
      case Raised(kind) =>
        proposal := Some(ProviderFailed(kind));
      case Got(plan, cost) =>
        lastCost := cost;
        proposal := Some(Served(plan, history));
    }
  }

  // ---------------------------------------------------------------- one worker, crashing and resuming

  /** Where the single worker stands between two accesses to the database or the model. */
  datatype Proc =
    | Down
    | AtHead(lastCost: Cost)
    | Unrecorded(plan: seq<Params>, cost: Cost)
    | Holding(proposal: Proposal, cost: Cost)

  /** The recorded calls, the recorded episodes, how often the model was asked, and the worker. */
  datatype World = World(calls: Calls, history: seq<Episode>, asked: nat, proc: Proc)

  /** What the model does is part of the action: asked twice, it may answer twice differently. */
  datatype Action = Start | Ask(inner: Inner) | Keep | Commit | Crash

  function Apply(run: Run, asker: Asker, offline: bool, world: World, action: Action): World
    requires ValidSpace(run.goal.space)
  {
    var state := StateOf(run, world.history, Executing);
    var key := asker.prompt(world.history);
    match (action, world.proc)
    case (Crash, _) => world.(proc := Down)
    case (Start, Down) => world.(proc := AtHead(ZERO_COST))
    case (Ask(inner), AtHead(lastCost)) =>
      if HeadReason(run, state).Some? then world.(proc := Down)
      else if key in world.calls then
        world.(proc := Holding(asker.serve(world.history, world.calls[key].plan), ReplayCost(world.calls[key])))
      else if offline then world.(proc := Down)
      else (match inner
        case Failing(kind) => world.(asked := world.asked + 1, proc := Holding(ProviderFailed(kind), lastCost))
        case Answered(plan, cost) => world.(asked := world.asked + 1, proc := Unrecorded(plan, cost)))
    case (Keep, Unrecorded(plan, cost)) =>
      World(Noted(world.calls, key, Stored(plan, cost)), world.history, world.asked,
            Holding(asker.serve(world.history, plan), cost))
    case (Commit, Holding(proposal, cost)) =>
      if proposal.NothingLeft? then world.(proc := Down)
      else
        var episode := EpisodeFor(run, state, proposal, cost);
        world.(history := world.history + [episode], proc := AtHead(episode.cost))
    case _ => world
  }

  function After(run: Run, asker: Asker, offline: bool, world: World, actions: seq<Action>): World
    requires ValidSpace(run.goal.space)
  {
    if actions == [] then world
    else Apply(run, asker, offline, After(run, asker, offline, world, actions[..|actions| - 1]), actions[|actions| - 1])
  }

  predicate Initial(world: World) {
    world.history == [] && world.asked == 0 && world.proc == Down
  }

  /** `Ask`, and `Keep` after a fresh answer, are what the strategy and its router promise together: the same
      record, proposal and cost, or no proposal from an offline replay that finds no record. */
  lemma {:induction false} AskingIsTheMethods(run: Run, asker: Asker, offline: bool, world: World, inner: Inner)
    requires ValidSpace(run.goal.space) && world.proc.AtHead?
    requires HeadReason(run, StateOf(run, world.history, Executing)).None?
    ensures var (proposal, calls, cost) := Consulted(asker, world.calls, offline, world.history, world.proc.lastCost, inner);
            var once := Apply(run, asker, offline, world, Ask(inner));
            var after := if once.proc.Unrecorded? then Apply(run, asker, offline, once, Keep) else once;
            && after.calls == calls && after.history == world.history
            && after.proc == (if proposal.Some? then Holding(proposal.value, cost) else Down)
  {
  }

  // ---------------------------------------------------------------- what the schedule cannot change

  /** Episode `i` is the turn of the reply on record under the prompt of the episodes before it. */
  ghost predicate FromReply(run: Run, asker: Asker, calls: Calls, history: seq<Episode>, i: nat)
    requires ValidSpace(run.goal.space) && i < |history|
  {
    var before := history[..i];
    var state := StateOf(run, before, Executing);
    && HeadReason(run, state).None?
    && asker.prompt(before) in calls
    && var proposal := asker.serve(before, calls[asker.prompt(before)].plan);
       proposal.Proposed? && history[i] == EpisodeFor(run, state, proposal, history[i].cost)
  }

  /** Episode `i` records that the model gave nothing usable: it carries no proposal. */
  ghost predicate WithoutProposal(run: Run, history: seq<Episode>, i: nat)
    requires i < |history|
  {
    history[i].candidate == Candidate(map[], Planner) && exists kind :: history[i].outcome == Errored(kind, true)
  }

  ghost predicate Accounted(run: Run, asker: Asker, calls: Calls, history: seq<Episode>)
    requires ValidSpace(run.goal.space)
  {
    forall i | 0 <= i < |history| :: WithoutProposal(run, history, i) || FromReply(run, asker, calls, history, i)
  }

  ghost predicate Ready(run: Run, asker: Asker, world: World)
    requires ValidSpace(run.goal.space)
  {
    var key := asker.prompt(world.history);
    match world.proc
    case Down => true
    case AtHead(_) => true
    case Unrecorded(_, _) => key !in world.calls && HeadReason(run, StateOf(run, world.history, Executing)).None?
    case Holding(proposal, _) =>
      && HeadReason(run, StateOf(run, world.history, Executing)).None?
      && (!proposal.ProviderFailed? ==>
            key in world.calls && proposal == asker.serve(world.history, world.calls[key].plan))
  }

  ghost predicate Consistent(run: Run, asker: Asker, world: World)
    requires ValidSpace(run.goal.space)
  {
    Contiguous(world.history) && Accounted(run, asker, world.calls, world.history) && Ready(run, asker, world)
  }

  lemma {:induction false} AccountedGrows(run: Run, asker: Asker, calls: Calls, history: seq<Episode>, episode: Episode)
    requires ValidSpace(run.goal.space) && Accounted(run, asker, calls, history)
    requires var grown := history + [episode];
             WithoutProposal(run, grown, |history|) || FromReply(run, asker, calls, grown, |history|)
    ensures Accounted(run, asker, calls, history + [episode])
  {
    var grown := history + [episode];
    forall i | 0 <= i < |history| ensures WithoutProposal(run, grown, i) || FromReply(run, asker, calls, grown, i) {
      assert grown[..i] == history[..i] && grown[i] == history[i];
      assert WithoutProposal(run, history, i) || FromReply(run, asker, calls, history, i);
    }
  }

  lemma {:induction false} CommitKeepsConsistency(run: Run, asker: Asker, offline: bool, world: World)
    requires ValidSpace(run.goal.space) && asker.Valid() && Consistent(run, asker, world)
    requires world.proc.Holding? && !world.proc.proposal.NothingLeft?
    ensures Consistent(run, asker, Apply(run, asker, offline, world, Commit))
  {
    var after := Apply(run, asker, offline, world, Commit);
    var n := |world.history|;
    var episode := after.history[n];
    ContiguousNextIndex(world.history);
    assert after.history[..n] == world.history;
    if world.proc.proposal.ProviderFailed? {
      assert episode.outcome == Errored(world.proc.proposal.kind, true);
      assert WithoutProposal(run, after.history, n);
    } else {
      assert FromReply(run, asker, world.calls, after.history, n);
    }
    AccountedGrows(run, asker, world.calls, world.history, episode);
  }

  lemma {:induction false} KeepKeepsConsistency(run: Run, asker: Asker, offline: bool, world: World)
    requires ValidSpace(run.goal.space) && asker.Valid() && Consistent(run, asker, world) && world.proc.Unrecorded?
    ensures Consistent(run, asker, Apply(run, asker, offline, world, Keep))
  {
    var after := Apply(run, asker, offline, world, Keep);
    forall i | 0 <= i < |world.history|
      ensures WithoutProposal(run, after.history, i) || FromReply(run, asker, after.calls, after.history, i)
    {
      assert WithoutProposal(run, world.history, i) || FromReply(run, asker, world.calls, world.history, i);
    }
  }

  lemma {:induction false} StepKeepsConsistency(run: Run, asker: Asker, offline: bool, world: World, action: Action)
    requires ValidSpace(run.goal.space) && asker.Valid() && Consistent(run, asker, world)
    ensures Consistent(run, asker, Apply(run, asker, offline, world, action))
  {
    if action.Commit? && world.proc.Holding? && !world.proc.proposal.NothingLeft? {
      CommitKeepsConsistency(run, asker, offline, world);
    } else if action.Keep? && world.proc.Unrecorded? {
      KeepKeepsConsistency(run, asker, offline, world);
    }
  }

  /** Over any schedule of one worker's crashes and resumptions, whatever the model answers each time: every
      episode that carries a proposal is the turn of the one reply on record under its own prompt. */
  lemma {:induction false} EpisodesComeFromTheRecord(run: Run, asker: Asker, offline: bool, world: World, actions: seq<Action>)
    requires ValidSpace(run.goal.space) && asker.Valid() && Initial(world)
    ensures Consistent(run, asker, After(run, asker, offline, world, actions))
  {
    if actions != [] {
      var n := |actions| - 1;
      EpisodesComeFromTheRecord(run, asker, offline, world, actions[..n]);
      StepKeepsConsistency(run, asker, offline, After(run, asker, offline, world, actions[..n]), actions[n]);
    }
  }

  /** No episode lost, and every recorded reply kept. */
  predicate RecordKept(early: World, late: World) {
    && early.history <= late.history
    && forall key | key in early.calls :: key in late.calls && late.calls[key] == early.calls[key]
  }

  lemma {:induction false} StepKeepsRecord(run: Run, asker: Asker, offline: bool, world: World, action: Action)
    requires ValidSpace(run.goal.space)
    ensures RecordKept(world, Apply(run, asker, offline, world, action))
    ensures Apply(run, asker, offline, world, action).asked <= world.asked + 1
    ensures offline || asker.prompt(world.history) in world.calls ==> Apply(run, asker, offline, world, action).asked == world.asked
  {
  }

  /** Between any two points of a schedule no episode is lost and no recorded reply changes. */
  lemma {:induction false} RecordedRepliesAreFinal(run: Run, asker: Asker, offline: bool, world: World, actions: seq<Action>, n: nat)
    requires ValidSpace(run.goal.space) && n <= |actions|
    ensures RecordKept(After(run, asker, offline, world, actions[..n]), After(run, asker, offline, world, actions))
  {
    if n == |actions| {
      assert actions[..n] == actions;
    } else {
      var init := actions[..|actions| - 1];
      assert init[..n] == actions[..n];
      RecordedRepliesAreFinal(run, asker, offline, world, init, n);
      StepKeepsRecord(run, asker, offline, After(run, asker, offline, world, init), actions[|init|]);
    }
  }

  // ---------------------------------------------------------------- the single-shot strategy

  /** Episode `i` tried entry `i` of the plan, through the guard, on the history before it. */
  ghost predicate FromPlan(run: Run, plan: seq<Params>, history: seq<Episode>, i: nat)
    requires ValidSpace(run.goal.space) && i < |history|
  {
    && i < |plan|
    && history[i] == EpisodeFor(run, StateOf(run, history[..i], Executing), Proposed(Candidate(plan[i], Planner)), history[i].cost)
  }

  /** Over any schedule of one worker, every single-shot episode that carries a proposal tried its own entry of
      the one recorded plan. */
  lemma {:induction false} EpisodesComeFromOnePlan(run: Run, key: string, offline: bool, world: World, actions: seq<Action>)
    requires ValidSpace(run.goal.space) && Initial(world)
    ensures var after := After(run, OneShot(key), offline, world, actions);
            forall i | 0 <= i < |after.history| && !WithoutProposal(run, after.history, i) ::
              key in after.calls && FromPlan(run, after.calls[key].plan, after.history, i)
  {
    EpisodesComeFromTheRecord(run, OneShot(key), offline, world, actions);
    var after := After(run, OneShot(key), offline, world, actions);
    forall i | 0 <= i < |after.history| && !WithoutProposal(run, after.history, i)
      ensures key in after.calls && FromPlan(run, after.calls[key].plan, after.history, i)
    {
      assert FromReply(run, OneShot(key), after.calls, after.history, i);
      ContiguousNextIndex(after.history[..i]);
    }
  }

  /** Once the single-shot plan is recorded the model is never asked again; offline it is never asked at all. */
  lemma {:induction false} NeverAskedAgain(run: Run, key: string, offline: bool, world: World, actions: seq<Action>, n: nat)
    requires ValidSpace(run.goal.space) && n <= |actions|
    requires offline || key in After(run, OneShot(key), offline, world, actions[..n]).calls
    ensures After(run, OneShot(key), offline, world, actions).asked == After(run, OneShot(key), offline, world, actions[..n]).asked
  {
    if n == |actions| {
      assert actions[..n] == actions;
    } else {
      var init := actions[..|actions| - 1];
      assert init[..n] == actions[..n];
      NeverAskedAgain(run, key, offline, world, init, n);
      RecordedRepliesAreFinal(run, OneShot(key), offline, world, init, n);
      StepKeepsRecord(run, OneShot(key), offline, After(run, OneShot(key), offline, world, init), actions[|init|]);
    }
  }

  /** And the plan is never replaced. */
  lemma {:induction false} RecordedPlanIsFinal(run: Run, key: string, offline: bool, world: World, actions: seq<Action>, n: nat)
    requires ValidSpace(run.goal.space) && n <= |actions|
    requires key in After(run, OneShot(key), offline, world, actions[..n]).calls
    ensures var early, late := After(run, OneShot(key), offline, world, actions[..n]), After(run, OneShot(key), offline, world, actions);
            late.asked == early.asked && key in late.calls && late.calls[key] == early.calls[key]
  {
    NeverAskedAgain(run, key, offline, world, actions, n);
    RecordedRepliesAreFinal(run, OneShot(key), offline, world, actions, n);
  }

  /** With the plan on record, a worker at a loop head that no exit stops proposes the entry of the plan that is next,
      and finds nothing left exactly when it has been through the whole plan. */
  lemma {:induction false} NextEntryIsServed(run: Run, key: string, offline: bool, world: World, inner: Inner)
    requires ValidSpace(run.goal.space) && world.proc.AtHead? && key in world.calls && Contiguous(world.history)
    requires HeadReason(run, StateOf(run, world.history, Executing)).None?
    ensures var plan, n := world.calls[key].plan, |world.history|;
            var after := Apply(run, OneShot(key), offline, world, Ask(inner));
            && after.proc.Holding? && after.proc.cost == ReplayCost(world.calls[key])
            && after.proc.proposal == (if n < |plan| then Proposed(Candidate(plan[n], Planner)) else NothingLeft)
  {
    ContiguousNextIndex(world.history);
  }

  /** No exit stops the replay of the first `n` entries of the plan. */
  ghost predicate Unhindered(run: Run, key: string, calls: Calls, n: nat)
    requires ValidSpace(run.goal.space)
  {
    forall k: nat | k < n :: HeadReason(run, StateOf(run, Replay(run, OneShot(key), calls, k).history, Executing)).None?
  }

  ghost predicate TriedInOrder(run: Run, key: string, calls: Calls, n: nat)
    requires ValidSpace(run.goal.space) && key in calls
  {
    var world := Replay(run, OneShot(key), calls, n);
    && |world.history| == n && Contiguous(world.history) && world.proc.AtHead? && world.calls == calls
    && forall i | 0 <= i < n :: FromPlan(run, calls[key].plan, world.history, i)
  }

  lemma {:induction false} EntryIsTried(run: Run, key: string, calls: Calls, world: World)
    requires ValidSpace(run.goal.space) && key in calls && world.calls == calls
    requires world.proc.AtHead? && Contiguous(world.history) && |world.history| < |calls[key].plan|
    requires HeadReason(run, StateOf(run, world.history, Executing)).None?
    requires forall i | 0 <= i < |world.history| :: FromPlan(run, calls[key].plan, world.history, i)
    ensures var next := ReplayedOnce(run, OneShot(key), world);
            && |next.history| == |world.history| + 1 && Contiguous(next.history) && next.proc.AtHead? && next.calls == calls
            && forall i | 0 <= i < |next.history| :: FromPlan(run, calls[key].plan, next.history, i)
  {
    var n, next := |world.history|, ReplayedOnce(run, OneShot(key), world);
    ContiguousNextIndex(world.history);
    NextEntryIsServed(run, key, true, world, OFFLINE_ASK.inner);
    assert next.history[..n] == world.history;
    forall i | 0 <= i < n ensures FromPlan(run, calls[key].plan, next.history, i) {
      assert next.history[..i] == world.history[..i] && FromPlan(run, calls[key].plan, world.history, i);
    }
  }

  lemma {:induction false} PlanIsServed(run: Run, key: string, calls: Calls, n: nat)
    requires ValidSpace(run.goal.space) && key in calls && n <= |calls[key].plan| && Unhindered(run, key, calls, n)
    ensures TriedInOrder(run, key, calls, n)
  {
    if n > 0 {
      PlanIsServed(run, key, calls, n - 1);
      EntryIsTried(run, key, calls, Replay(run, OneShot(key), calls, n - 1));
    }
  }

  /** A schedule that nothing hinders commits one episode for every entry of the plan, in order, and then goes
      down. */
  lemma {:induction false} WholePlanIsServed(run: Run, key: string, calls: Calls)
    requires ValidSpace(run.goal.space) && key in calls && Unhindered(run, key, calls, |calls[key].plan|)
    ensures var n := |calls[key].plan|;
            var world, down := Replay(run, OneShot(key), calls, n), Replay(run, OneShot(key), calls, n + 1);
            && |world.history| == n && (forall i | 0 <= i < n :: FromPlan(run, calls[key].plan, world.history, i))
            && down.proc.Down? && down.history == world.history
  {
    var n := |calls[key].plan|;
    var world := Replay(run, OneShot(key), calls, n);
    PlanIsServed(run, key, calls, n);
    if HeadReason(run, StateOf(run, world.history, Executing)).None? {
      NextEntryIsServed(run, key, true, world, OFFLINE_ASK.inner);
    }
  }

  // ---------------------------------------------------------------- replaying offline

  /** The strategy and the detectors do not look at costs. */
  ghost predicate BlindToCosts(run: Run, asker: Asker) {
    && (forall h: seq<Episode> :: asker.prompt(WithoutCosts(h)) == asker.prompt(h))
    && (forall h: seq<Episode>, plan: seq<Params> :: asker.serve(WithoutCosts(h), plan) == asker.serve(h, plan))
    && (forall h: seq<Episode>, g: Goal :: run.stuck(WithoutCosts(h), g) == run.stuck(h, g))
  }

  ghost predicate NoEurosAsked(actions: seq<Action>) {
    forall k | 0 <= k < |actions| && actions[k].Ask? && actions[k].inner.Answered? :: actions[k].inner.cost.eur == 0.0
  }

  predicate NoEurosIn(world: World) {
    && NoEuros(world.history)
    && match world.proc
       case Down => true
       case AtHead(cost) => cost.eur == 0.0
       case Unrecorded(_, cost) => cost.eur == 0.0
       case Holding(_, cost) => cost.eur == 0.0
  }

  lemma {:induction false} NothingCostsEuros(run: Run, asker: Asker, offline: bool, world: World, actions: seq<Action>)
    requires ValidSpace(run.goal.space) && Initial(world) && NoEurosAsked(actions)
    ensures NoEurosIn(After(run, asker, offline, world, actions))
  {
    if actions != [] {
      NothingCostsEuros(run, asker, offline, world, actions[..|actions| - 1]);
    }
  }

  /** A fresh process, offline, over the calls on record. */
  function Fresh(calls: Calls): World {
    World(calls, [], 0, Down)
  }

  /** Offline it does not matter what the model would have said. */
  const OFFLINE_ASK: Action := Ask(Failing("offline"))

  /** One episode of an offline replay: ask and commit. */
  function ReplayedOnce(run: Run, asker: Asker, world: World): World
    requires ValidSpace(run.goal.space)
  {
    Apply(run, asker, true, Apply(run, asker, true, world, OFFLINE_ASK), Commit)
  }

  function Iterated(step: World -> World, world: World, n: nat): World {
    if n == 0 then world else step(Iterated(step, world, n - 1))
  }

  function Stepping(run: Run, asker: Asker): World -> World
    requires ValidSpace(run.goal.space)
  {
    (world: World) => ReplayedOnce(run, asker, world)
  }

  /** An offline replay: start, then ask and commit `n` times. */
  function Replay(run: Run, asker: Asker, calls: Calls, n: nat): World
    requires ValidSpace(run.goal.space)
  {
    Iterated(Stepping(run, asker), World(calls, [], 0, AtHead(ZERO_COST)), n)
  }

  function Replaying(n: nat): seq<Action> {
    if n == 0 then [Start] else Replaying(n - 1) + [OFFLINE_ASK] + [Commit]
  }

  lemma {:induction false} AfterSnoc(run: Run, asker: Asker, offline: bool, world: World, actions: seq<Action>, action: Action)
    requires ValidSpace(run.goal.space)
    ensures After(run, asker, offline, world, actions + [action]) == Apply(run, asker, offline, After(run, asker, offline, world, actions), action)
  {
    assert (actions + [action])[..|actions|] == actions;
  }

  lemma {:induction false} AfterOne(run: Run, asker: Asker, offline: bool, world: World, action: Action)
    requires ValidSpace(run.goal.space)
    ensures After(run, asker, offline, world, [action]) == Apply(run, asker, offline, world, action)
  {
    AfterSnoc(run, asker, offline, world, [], action);
    assert [] + [action] == [action];
  }

  lemma {:induction false} AfterTwo(
      run: Run, asker: Asker, offline: bool, world: World, actions: seq<Action>, one: Action, two: Action)
    requires ValidSpace(run.goal.space)
    ensures After(run, asker, offline, world, actions + [one] + [two])
         == Apply(run, asker, offline, Apply(run, asker, offline, After(run, asker, offline, world, actions), one), two)
  {
    AfterSnoc(run, asker, offline, world, actions, one);
    AfterSnoc(run, asker, offline, world, actions + [one], two);
  }

  lemma {:induction false} ScheduleGrows(run: Run, asker: Asker, world: World, actions: seq<Action>)
    requires ValidSpace(run.goal.space)
    ensures After(run, asker, true, world, actions + [OFFLINE_ASK] + [Commit])
         == ReplayedOnce(run, asker, After(run, asker, true, world, actions))
  {
    AfterTwo(run, asker, true, world, actions, OFFLINE_ASK, Commit);
  }

  lemma {:induction false} ScheduleIterates(run: Run, asker: Asker, calls: Calls, step: World -> World, start: World, n: nat)
    requires ValidSpace(run.goal.space) && start == After(run, asker, true, Fresh(calls), [Start])
    requires step == Stepping(run, asker)
    ensures Iterated(step, start, n) == After(run, asker, true, Fresh(calls), Replaying(n))
  {
    if n > 0 {
      ScheduleIterates(run, asker, calls, step, start, n - 1);
      ScheduleGrows(run, asker, Fresh(calls), Replaying(n - 1));
    }
  }

  /** It is one schedule of the worker. */
  lemma {:induction false} ReplayIsASchedule(run: Run, asker: Asker, calls: Calls, n: nat)
    requires ValidSpace(run.goal.space)
    ensures Replay(run, asker, calls, n) == After(run, asker, true, Fresh(calls), Replaying(n))
  {
    AfterOne(run, asker, true, Fresh(calls), Start);
    ScheduleIterates(run, asker, calls, Stepping(run, asker), World(calls, [], 0, AtHead(ZERO_COST)), n);
  }

  /** Between two episodes of an offline replay. */
  predicate Between(calls: Calls, world: World) {
    world.calls == calls && world.asked == 0 && (world.proc.Down? || world.proc.AtHead?)
  }

  /** Nothing is asked, nothing recorded, the history only extended, and a replay that is down stays down. */
  predicate Leads(calls: Calls, early: World, late: World) {
    && Between(calls, early) && Between(calls, late)
    && early.history <= late.history
    && (early.proc.Down? ==> late == early)
  }

  lemma {:induction false} ReplayStepReads(run: Run, asker: Asker, calls: Calls, world: World)
    requires ValidSpace(run.goal.space) && Between(calls, world)
    ensures Leads(calls, world, ReplayedOnce(run, asker, world))
  {
  }

  lemma {:induction false} IteratedLeads(calls: Calls, step: World -> World, start: World, m: nat, n: nat)
    requires m <= n && Between(calls, start)
    requires forall world | Between(calls, world) :: Leads(calls, world, step(world))
    ensures Leads(calls, Iterated(step, start, m), Iterated(step, start, n))
    decreases n
  {
    if n > 0 {
      IteratedLeads(calls, step, start, if m == n then m - 1 else m, n - 1);
    }
  }

  /** Between any two points of it an offline replay only reads. */
  lemma {:induction false} ReplayOnlyReads(run: Run, asker: Asker, calls: Calls, m: nat, n: nat)
    requires ValidSpace(run.goal.space) && m <= n
    ensures Leads(calls, Replay(run, asker, calls, m), Replay(run, asker, calls, n))
  {
    forall world | Between(calls, world) ensures Leads(calls, world, Stepping(run, asker)(world)) {
      ReplayStepReads(run, asker, calls, world);
    }
    IteratedLeads(calls, Stepping(run, asker), World(calls, [], 0, AtHead(ZERO_COST)), m, n);
  }

  lemma {:induction false} SameProposal(run: Run, asker: Asker, left: seq<Episode>, right: seq<Episode>, plan: seq<Params>)
    requires BlindToCosts(run, asker) && SameUpToCost(left, right) && NoEuros(left) && NoEuros(right)
    ensures asker.prompt(left) == asker.prompt(right)
    ensures asker.serve(left, plan) == asker.serve(right, plan)
    ensures HeadReason(run, StateOf(run, left, Executing)) == HeadReason(run, StateOf(run, right, Executing))
  {
    assert asker.prompt(WithoutCosts(left)) == asker.prompt(left);
    assert asker.prompt(WithoutCosts(right)) == asker.prompt(right);
    assert asker.serve(WithoutCosts(left), plan) == asker.serve(left, plan);
    assert asker.serve(WithoutCosts(right), plan) == asker.serve(right, plan);
    assert run.stuck(WithoutCosts(left), run.goal) == run.stuck(left, run.goal);
    assert run.stuck(WithoutCosts(right), run.goal) == run.stuck(right, run.goal);
    CostsDoNotMatter(left, run.goal.objective, run.limits);
    CostsDoNotMatter(right, run.goal.objective, run.limits);
  }

  /** A replay standing on episodes equal up to cost to those before a turn from the record takes that turn. */
  lemma {:induction false} ReplayTakesTurn(run: Run, asker: Asker, calls: Calls, history: seq<Episode>, n: nat, world: World)
    requires ValidSpace(run.goal.space) && BlindToCosts(run, asker) && NoEuros(history) && n < |history|
    requires FromReply(run, asker, calls, history, n) && StandsOn(calls, history[..n], world)
    ensures StandsOn(calls, history[..n + 1], ReplayedOnce(run, asker, world))
  {
    var before := history[..n];
    var plan := calls[asker.prompt(before)].plan;
    SameProposal(run, asker, world.history, before, plan);
    var proposal, cost := asker.serve(before, plan), ReplayCost(calls[asker.prompt(before)]);
    var episode := EpisodeFor(run, StateOf(run, world.history, Executing), proposal, cost);
    SameEpisode(run, world.history, before, proposal, cost, history[n].cost);
    SameSnoc(world.history, before, episode, history[n]);
    assert before + [history[n]] == history[..n + 1];
    assert ReplayedOnce(run, asker, world) == World(calls, world.history + [episode], world.asked, AtHead(cost));
  }

  /** The replay has these episodes, up to cost, and goes on. */
  ghost predicate StandsOn(calls: Calls, history: seq<Episode>, world: World) {
    && SameUpToCost(world.history, history) && NoEuros(world.history) && NoEuros(history)
    && world.calls == calls && world.proc.AtHead?
  }

  lemma {:induction false} ReplayReproduces(run: Run, asker: Asker, calls: Calls, history: seq<Episode>, n: nat)
    requires ValidSpace(run.goal.space) && BlindToCosts(run, asker) && NoEuros(history) && n <= |history|
    requires forall i | 0 <= i < n :: FromReply(run, asker, calls, history, i)
    ensures StandsOn(calls, history[..n], Replay(run, asker, calls, n))
  {
    if n == 0 {
      assert history[..0] == [];
    } else {
      ReplayReproduces(run, asker, calls, history, n - 1);
      ReplayTakesTurn(run, asker, calls, history, n - 1, Replay(run, asker, calls, n - 1));
    }
  }

  /** What a proposal leads to is never what a failed ask leads to. */
  lemma {:induction false} ProposalsLeaveTraces(run: Run, state: RunState, proposal: Proposal, cost: Cost)
    requires ValidSpace(run.goal.space) && proposal.Proposed?
    ensures var episode := EpisodeFor(run, state, proposal, cost);
            episode.candidate.params == map[] ==> episode.outcome == Errored("GuardRejection", false)
  {
    NameDeclared(run.goal.space, 0);
    match Validated(proposal.candidate, run.goal.space, run.read)
    case Refused(_) =>
    case Passed(cleaned, _, _) =>
      ValidatedConforms(proposal.candidate, run.goal.space, run.read);
      MovedKeys(run.goal.space, cleaned.params, run.nudges(run.seed, state.stepIdx, run.goal.space, cleaned.params));
  }

  /** A replay standing before a failed ask goes down, or takes a turn that differs from it: it finds no record,
      or a reply that was recorded later. */
  lemma {:induction false} ReplayCannotFail(run: Run, asker: Asker, calls: Calls, history: seq<Episode>, i: nat, world: World)
    requires ValidSpace(run.goal.space) && asker.Valid() && i < |history| && WithoutProposal(run, history, i)
    requires world.calls == calls && world.proc.AtHead? && |world.history| == i
    ensures var next := ReplayedOnce(run, asker, world);
            |next.history| <= i + 1
            && (|next.history| == i + 1 ==> WithoutCost(next.history[i]) != WithoutCost(history[i]))
            && (|next.history| == i ==> next.proc.Down?)
  {
    var key := asker.prompt(world.history);
    var state := StateOf(run, world.history, Executing);
    if HeadReason(run, state).None? && key in calls && asker.serve(world.history, calls[key].plan).Proposed? {
      ProposalsLeaveTraces(run, state, asker.serve(world.history, calls[key].plan), ReplayCost(calls[key]));
    }
  }

  lemma {:induction false} DifferentAt(left: seq<Episode>, right: seq<Episode>, i: nat)
    requires i < |left| && i < |right| && WithoutCost(left[i]) != WithoutCost(right[i])
    ensures !SameUpToCost(left, right)
  {
    assert WithoutCosts(left)[i] != WithoutCosts(right)[i];
  }

  lemma {:induction false} ReplayDiverges(run: Run, asker: Asker, calls: Calls, history: seq<Episode>, i: nat)
    requires ValidSpace(run.goal.space) && asker.Valid() && i < |history| && WithoutProposal(run, history, i)
    requires StandsOn(calls, history[..i], Replay(run, asker, calls, i))
    ensures !SameUpToCost(Replay(run, asker, calls, |history|).history, history)
  {
    var before, next := Replay(run, asker, calls, i), Replay(run, asker, calls, i + 1);
    var end := Replay(run, asker, calls, |history|);
    assert |before.history| == |WithoutCosts(before.history)| == |WithoutCosts(history[..i])| == i;
    ReplayCannotFail(run, asker, calls, history, i, before);
    ReplayOnlyReads(run, asker, calls, i, i + 1);
    ReplayOnlyReads(run, asker, calls, i + 1, |history|);
    if |next.history| == i + 1 {
      assert end.history[i] == next.history[i];
      DifferentAt(end.history, history, i);
    } else {
      assert |WithoutCosts(end.history)| == |end.history| == i;
    }
  }

  /** Whatever a worker went through, an offline replay over its recorded calls reproduces its episodes up to
      cost, asking no model, if and only if no ask had failed. */
  lemma {:induction false} OfflineReplayReproducesExactlyWhen(
      run: Run, asker: Asker, offline: bool, world: World, actions: seq<Action>)
    requires ValidSpace(run.goal.space) && asker.Valid() && BlindToCosts(run, asker)
    requires Initial(world) && NoEurosAsked(actions)
    ensures var after := After(run, asker, offline, world, actions);
            var replay := Replay(run, asker, after.calls, |after.history|);
            && replay.asked == 0 && replay.calls == after.calls
            && (SameUpToCost(replay.history, after.history) <==>
                forall i | 0 <= i < |after.history| :: !WithoutProposal(run, after.history, i))
  {
    var after := After(run, asker, offline, world, actions);
    var history, n := after.history, |after.history|;
    EpisodesComeFromTheRecord(run, asker, offline, world, actions);
    NothingCostsEuros(run, asker, offline, world, actions);
    ReplayOnlyReads(run, asker, after.calls, 0, n);
    if forall i | 0 <= i < n :: !WithoutProposal(run, history, i) {
      ReplayReproduces(run, asker, after.calls, history, n);
      assert history[..n] == history;
    } else {
      var i := FirstFailure(run, history);
      ReplayReproduces(run, asker, after.calls, history, i);
      ReplayDiverges(run, asker, after.calls, history, i);
    }
  }

  lemma {:induction false} FirstFailure(run: Run, history: seq<Episode>) returns (i: nat)
    requires exists j :: 0 <= j < |history| && WithoutProposal(run, history, j)
    ensures i < |history| && WithoutProposal(run, history, i)
    ensures forall j | 0 <= j < i :: !WithoutProposal(run, history, j)
  {
    i := 0;
    while !WithoutProposal(run, history, i)
      invariant i < |history|
      invariant forall j | 0 <= j < i :: !WithoutProposal(run, history, j)
      invariant exists j :: i <= j < |history| && WithoutProposal(run, history, j)
      decreases |history| - i
    {
      i := i + 1;
    }
  }
}
