/** Any number of workers on one run, interleaved at every database access, dying at will,
    beside a snapshot row nobody may rely on. */
module Workers {
  import opened Domain
  import opened History
  import opened Persistence
  import opened Loop
  import opened Durability

  /** Where a worker process stands between two of its database accesses; `seen` are the calls that were
      on record when its strategy looked. */
  datatype Worker =
    | Idle
    | Ready(state: RunState, lastCost: Cost)
    | Asking(state: RunState, lastCost: Cost, seen: set<string>)
    | Holding(state: RunState, lastCost: Cost, seen: set<string>, episode: Episode)
    | Unsaved(state: RunState, lastCost: Cost)
    | Leaving(state: RunState, reason: Reason)

  datatype World = World(row: RunRow, table: Table, keys: set<string>, workers: map<nat, Worker>)

  /** One worker's next step, a crash, or an overwrite of the snapshot's derived columns.  A worker takes
      its turn in two steps: it looks for its call on record, then records the call and goes on. */
  datatype Action =
    | Load(w: nat) | Take(w: nat) | Note(w: nat) | Insert(w: nat) | Save(w: nat) | Leave(w: nat) | Crash(w: nat)
    | Corrupt(status: Status, best: Option<Best>, budget: Budget, stepIdx: nat)

  function At(world: World, w: nat): Worker {
    if w in world.workers then world.workers[w] else Idle
  }

  function Saved(run: Run, world: World, state: RunState): RunRow {
    Upserted(Some(world.row), state, run.simulator, run.strategy, None)
  }

  function Moving(world: World, w: nat, worker: Worker): World {
    world.(workers := world.workers[w := worker])
  }

  /** The effect of an action; an action its worker is not ready for does nothing. */
  function Apply(run: Run, world: World, action: Action): World
    requires ValidSpace(run.goal.space)
  {
    match action
    case Corrupt(status, best, budget, stepIdx) =>
      if budget.Unspent() != run.limits.Unspent() then world
      else world.(row := world.row.(status := status, best := best, budget := budget, stepIdx := stepIdx))
    case Crash(w) => Moving(world, w, Idle)
    case Load(w) =>
      if !At(world, w).Idle? then world
      else Moving(world, w, Ready(Rehydrated(StoredFrom(run.runId, world.row, world.table).state), ZERO_COST))
    case Take(w) =>
      (match At(world, w)
       case Ready(state, lastCost) =>
         (match HeadReason(run, state)
          case Some(reason) => Moving(world, w, Leaving(state, reason))
          case None => Moving(world, w, Asking(state, lastCost, world.keys)))
       case _ => world)
    case Note(w) =>
      (match At(world, w)
       case Asking(state, lastCost, seen) =>
         var noted := world.(keys := world.keys + Asked(run, state));
         (match Taken(run, state, lastCost, seen)
          case Stop(reason) => Moving(noted, w, Leaving(state, reason))
          case Record(episode) => Moving(noted, w, Holding(state, lastCost, seen, episode)))
       case _ => world)
    case Insert(w) =>
      (match At(world, w)
       case Holding(state, _, _, episode) =>
         if episode.idx in world.table then Moving(world, w, Leaving(state, Error))
         else Moving(world.(table := world.table[episode.idx := episode]), w, Unsaved(Kept(state, episode), episode.cost))
       case _ => world)
    case Save(w) =>
      (match At(world, w)
       case Unsaved(state, lastCost) => Moving(world.(row := Saved(run, world, state)), w, Ready(state, lastCost))
       case _ => world)
    case Leave(w) =>
      (match At(world, w)
       case Leaving(state, reason) =>
         Moving(world.(row := Saved(run, world, state.(status := if reason == Error then Failed else Done))), w, Idle)
       case _ => world)
  }

  function After(run: Run, world: World, actions: seq<Action>): World
    requires ValidSpace(run.goal.space)
  {
    if actions == [] then world
    else Apply(run, After(run, world, actions[..|actions| - 1]), actions[|actions| - 1])
  }

  /** Nothing recorded, nobody working. */
  predicate Initial(run: Run, world: World) {
    world.table == map[] && world.keys == {} && world.workers == map[] && Configured(run, world.row)
  }

  predicate Configured(run: Run, row: RunRow) {
    row.goal == run.goal && row.seed == run.seed && row.budget.Unspent() == run.limits.Unspent()
  }

  // ---------------------------------------------------------------- the invariant

  /** A state standing on a prefix of the recorded history, fresh or carrying that prefix's last cost. */
  ghost predicate Stands(run: Run, state: RunState, lastCost: Cost, history: seq<Episode>) {
    && state.history <= history
    && state == StateOf(run, state.history, state.status)
    && Belongs(state, run)
    && (lastCost == ZERO_COST || (state.history != [] && lastCost == state.history[|state.history| - 1].cost))
  }

  /** The worker looked when the calls behind its history were on record. */
  ghost predicate Looked(run: Run, state: RunState, seen: set<string>, keys: set<string>) {
    AskedBy(run, state.history) <= seen <= keys
  }

  ghost predicate Sound(run: Run, worker: Worker, history: seq<Episode>, keys: set<string>)
    requires ValidSpace(run.goal.space)
  {
    match worker
    case Idle => true
    case Ready(state, lastCost) => Stands(run, state, lastCost, history)
    case Asking(state, lastCost, seen) => Stands(run, state, lastCost, history) && Looked(run, state, seen, keys)
    case Holding(state, lastCost, seen, episode) =>
      && Stands(run, state, lastCost, history) && Looked(run, state, seen, keys)
      && Asked(run, state) <= keys
      && Taken(run, state, lastCost, seen) == Record(episode)
    case Unsaved(state, lastCost) => Stands(run, state, lastCost, history)
    case Leaving(state, reason) =>
      && Stands(run, state, ZERO_COST, history)
      && (reason == Error || Taken(run, state, ZERO_COST, {}) == Stop(reason))
  }

  /** The table is a gapless history, and every worker stands on a prefix of it. */
  ghost predicate Consistent(run: Run, world: World, history: seq<Episode>)
    requires ValidSpace(run.goal.space)
  {
    && Contiguous(history)
    && world.table == TableOf(history)
    && Configured(run, world.row)
    && Behind(run, history, world.keys)
    && forall w | w in world.workers :: Sound(run, world.workers[w], history, world.keys)
  }

  /** A worker's call is behind the recorded history, or is the one asked for next. */
  lemma {:induction false} AskedIsRecorded(run: Run, state: RunState, lastCost: Cost, history: seq<Episode>)
    requires Stands(run, state, lastCost, history)
    ensures Asked(run, state) == AskedAfter(run, state.history)
    ensures Asked(run, state) <= AskedBy(run, history) + AskedAfter(run, history)
    ensures AskedBy(run, state.history) <= AskedBy(run, history)
  {
    AskedIncluded(run, history, |state.history|);
    assert history[..|state.history|] == state.history;
    assert |state.history| == |history| ==> state.history == history;
  }

  lemma {:induction false} StopForAnyCost(run: Run, state: RunState, carried: Cost, keys: set<string>)
    requires ValidSpace(run.goal.space) && Taken(run, state, carried, keys).Stop?
    ensures Taken(run, state, ZERO_COST, {}) == Taken(run, state, carried, keys)
  {
  }

  lemma {:induction false} TakenIsNext(run: Run, state: RunState, carried: Cost, keys: set<string>)
    requires ValidSpace(run.goal.space) && state == StateOf(run, state.history, state.status)
    ensures Taken(run, state, carried, keys) == Next(run, state.history, carried, keys)
  {
    TakenIgnoresStatus(run, state, Executing, carried, keys);
  }

  lemma {:induction false} SoundGrows(run: Run, worker: Worker, history: seq<Episode>, keys: set<string>, grown: seq<Episode>, more: set<string>)
    requires ValidSpace(run.goal.space) && Sound(run, worker, history, keys) && history <= grown && keys <= more
    ensures Sound(run, worker, grown, more)
  {
  }

  lemma {:induction false} LoadIsSound(run: Run, world: World, history: seq<Episode>)
    requires ValidSpace(run.goal.space) && Consistent(run, world, history)
    ensures Stands(run, Rehydrated(StoredFrom(run.runId, world.row, world.table).state), ZERO_COST, history)
  {
    var state := StoredFrom(run.runId, world.row, world.table).state;
    OrderedTable(history);
    RehydratedIsStateOf(state, run);
    BudgetKeepsLimits(state.budget, state.history);
  }

  /** An insert that lands comes from a worker standing on the whole recorded history. */
  lemma {:induction false} LandingInsertIsCurrent(
      run: Run, state: RunState, lastCost: Cost, seen: set<string>, episode: Episode, history: seq<Episode>)
    requires ValidSpace(run.goal.space) && Contiguous(history)
    requires Stands(run, state, lastCost, history) && Taken(run, state, lastCost, seen) == Record(episode)
    requires episode.idx !in TableOf(history)
    ensures state.history == history && episode.idx == |history|
    ensures Next(run, history, lastCost, seen) == Record(episode)
  {
    TakenIsNext(run, state, lastCost, seen);
    NextSpends(run, state.history, lastCost, seen);
    assert forall i | 0 <= i < |state.history| :: state.history[i] == history[i];
    ContiguousNextIndex(state.history);
    assert |state.history| >= |history|;
  }

  lemma {:induction false} TableGrows(history: seq<Episode>, episode: Episode)
    requires episode.idx == |history|
    ensures TableOf(history + [episode]) == TableOf(history)[episode.idx := episode]
  {
  }

  lemma {:induction false} OthersStaySound(
      run: Run, world: World, history: seq<Episode>, after: World, grown: seq<Episode>, w: nat)
    requires ValidSpace(run.goal.space) && Consistent(run, world, history)
    requires history <= grown && world.keys <= after.keys
    requires w in after.workers && after.workers == world.workers[w := after.workers[w]]
    requires Sound(run, after.workers[w], grown, after.keys)
    ensures forall v | v in after.workers :: Sound(run, after.workers[v], grown, after.keys)
  {
    forall v | v in after.workers ensures Sound(run, after.workers[v], grown, after.keys) {
      if v != w {
        SoundGrows(run, world.workers[v], history, world.keys, grown, after.keys);
      }
    }
  }

  lemma {:induction false} KeptStands(
      run: Run, state: RunState, lastCost: Cost, seen: set<string>, episode: Episode, history: seq<Episode>)
    requires ValidSpace(run.goal.space) && Stands(run, state, lastCost, history) && state.history == history
    requires Next(run, history, lastCost, seen) == Record(episode)
    ensures Stands(run, Kept(state, episode), episode.cost, history + [episode])
    ensures AskedBy(run, history + [episode]) == AskedBy(run, history) + AskedAfter(run, history)
  {
    KeptIsRecomputed(run, history, state.status, lastCost, seen);
    AskedSinceSnoc(run, history, episode, 0, {});
    assert forall keys: set<string> :: {} + keys == keys;
  }

  lemma {:induction false} InsertExtends(run: Run, world: World, history: seq<Episode>, w: nat)
    requires ValidSpace(run.goal.space) && Consistent(run, world, history)
    requires At(world, w).Holding? && At(world, w).episode.idx !in world.table
    ensures At(world, w).state.history == history && Behind(run, history, At(world, w).seen)
    ensures Next(run, history, At(world, w).lastCost, At(world, w).seen) == Record(At(world, w).episode)
    ensures Consistent(run, Apply(run, world, Insert(w)), history + [At(world, w).episode])
  {
    var Holding(state, lastCost, seen, episode) := At(world, w);
    LandingInsertIsCurrent(run, state, lastCost, seen, episode, history);
    KeptStands(run, state, lastCost, seen, episode, history);
    TableGrows(history, episode);
    AskedIsRecorded(run, state, lastCost, history);
    var grown := history + [episode];
    OthersStaySound(run, world, history, Apply(run, world, Insert(w)), grown, w);
  }

  lemma {:induction false} TakeKeepsConsistency(run: Run, world: World, w: nat, history: seq<Episode>)
    requires ValidSpace(run.goal.space) && Consistent(run, world, history) && At(world, w).Ready?
    ensures Consistent(run, Apply(run, world, Take(w)), history)
  {
    AskedIsRecorded(run, At(world, w).state, At(world, w).lastCost, history);
    OthersStaySound(run, world, history, Apply(run, world, Take(w)), history, w);
  }

  lemma {:induction false} NoteKeepsConsistency(run: Run, world: World, w: nat, history: seq<Episode>)
    requires ValidSpace(run.goal.space) && Consistent(run, world, history) && At(world, w).Asking?
    ensures Consistent(run, Apply(run, world, Note(w)), history)
  {
    var Asking(state, lastCost, seen) := At(world, w);
    var after := Apply(run, world, Note(w));
    AskedIsRecorded(run, state, lastCost, history);
    if Taken(run, state, lastCost, seen).Stop? {
      StopForAnyCost(run, state, lastCost, seen);
    }
    OthersStaySound(run, world, history, after, history, w);
  }

  predicate Lands(world: World, action: Action) {
    action.Insert? && At(world, action.w).Holding? && At(world, action.w).episode.idx !in world.table
  }

  lemma {:induction false} SnapshotStepKeepsConsistency(run: Run, world: World, action: Action, history: seq<Episode>)
    requires ValidSpace(run.goal.space) && Consistent(run, world, history)
    requires action.Save? || action.Leave? || action.Corrupt?
    ensures Consistent(run, Apply(run, world, action), history)
  {
    var after := Apply(run, world, action);
    assert Configured(run, after.row);
    if !action.Corrupt? && action.w in after.workers && after.workers != world.workers {
      OthersStaySound(run, world, history, after, history, action.w);
    }
  }

  lemma {:induction false} QuietStepKeepsConsistency(run: Run, world: World, action: Action, history: seq<Episode>)
    requires ValidSpace(run.goal.space) && Consistent(run, world, history) && !Lands(world, action)
    ensures Consistent(run, Apply(run, world, action), history)
  {
    match action
    case Load(w) => LoadIsSound(run, world, history);
    case Take(w) =>
      if At(world, w).Ready? {
        TakeKeepsConsistency(run, world, w, history);
      }
    case Note(w) =>
      if At(world, w).Asking? {
        NoteKeepsConsistency(run, world, w, history);
      }
    case Insert(w) =>
    case Crash(w) =>
    case _ => SnapshotStepKeepsConsistency(run, world, action, history);
  }

  /** What an action does to the recorded history: nothing, or the acting worker's turn is appended, taken
      from the whole of it. */
  lemma {:induction false} StepKeepsConsistency(run: Run, world: World, action: Action, history: seq<Episode>)
    returns (grown: seq<Episode>, carried: Cost, seen: set<string>)
    requires ValidSpace(run.goal.space) && Consistent(run, world, history)
    ensures Consistent(run, Apply(run, world, action), grown)
    ensures grown != history ==>
              && (carried == ZERO_COST || (history != [] && carried == history[|history| - 1].cost))
              && Behind(run, history, seen)
              && Next(run, history, carried, seen).Record?
              && grown == history + [Next(run, history, carried, seen).episode]
  {
    if Lands(world, action) {
      var Holding(_, lastCost, looked, episode) := At(world, action.w);
      InsertExtends(run, world, history, action.w);
      grown, carried, seen := history + [episode], lastCost, looked;
    } else {
      QuietStepKeepsConsistency(run, world, action, history);
      grown, carried, seen := history, ZERO_COST, {};
    }
  }

  // ---------------------------------------------------------------- the theorems

  /** In every interleaving the table is a gapless history, whatever the strategies cost. */
  lemma {:induction false} TableIsAlwaysContiguous(run: Run, world: World, actions: seq<Action>) returns (history: seq<Episode>)
    requires ValidSpace(run.goal.space) && Initial(run, world)
    ensures Consistent(run, After(run, world, actions), history)
  {
    if actions == [] {
      history := [];
      assert TableOf([]) == map[];
    } else {
      var before := TableIsAlwaysContiguous(run, world, actions[..|actions| - 1]);
      var grown, _, _ := StepKeepsConsistency(run, After(run, world, actions[..|actions| - 1]), actions[|actions| - 1], before);
      history := grown;
    }
  }

  lemma {:induction false} StepKeepsRows(run: Run, world: World, action: Action)
    requires ValidSpace(run.goal.space)
    ensures AppendOnly(world.table, Apply(run, world, action).table)
  {
  }

  lemma {:induction false} AppendOnlyTwice(before: Table, between: Table, after: Table)
    requires AppendOnly(before, between) && AppendOnly(between, after)
    ensures AppendOnly(before, after)
  {
  }

  /** Between any two points of an interleaving no row is lost, replaced or reordered. */
  lemma {:induction false} RowsAreNeverLost(run: Run, world: World, actions: seq<Action>, n: nat)
    requires ValidSpace(run.goal.space) && n <= |actions|
    ensures AppendOnly(After(run, world, actions[..n]).table, After(run, world, actions).table)
  {
    if n == |actions| {
      assert actions[..n] == actions;
    } else {
      var init := actions[..|actions| - 1];
      var before, between, after := After(run, world, actions[..n]).table, After(run, world, init).table, After(run, world, actions).table;
      assert init[..n] == actions[..n];
      RowsAreNeverLost(run, world, init, n);
      StepKeepsRows(run, After(run, world, init), actions[|init|]);
      AppendOnlyTwice(before, between, after);
    }
  }

  /** The worker leaves the whole run behind it, up to cost. */
  ghost predicate LeavesWhole(run: Run, worker: Worker, history: seq<Episode>)
    requires ValidSpace(run.goal.space)
  {
    worker.Leaving? && worker.reason != Error ==>
      && |history| == |Uninterrupted(run).0|
      && SameUpToCost(worker.state.history, Uninterrupted(run).0)
      && worker.reason == Uninterrupted(run).1
  }

  /** For any number of workers, any interleaving, crashes and snapshot corruption: the table is always a
      prefix of the one history an uninterrupted worker would write, up to what each episode was charged,
      and a worker that leaves for any reason but a collision leaves that whole history behind. */
  lemma {:induction false} TableIsAlwaysPrefixUpToCost(run: Run, world: World, actions: seq<Action>) returns (history: seq<Episode>)
    requires ValidSpace(run.goal.space) && Initial(run, world) && CostsDecideNothing(run)
    ensures Consistent(run, After(run, world, actions), history) && PrefixUpToCost(run, history)
    ensures forall w :: LeavesWhole(run, At(After(run, world, actions), w), history)
  {
    if actions == [] {
      history := [];
      assert TableOf([]) == map[] && Uninterrupted(run).0[..0] == [];
    } else {
      var before := TableIsAlwaysPrefixUpToCost(run, world, actions[..|actions| - 1]);
      var grown, carried, seen := StepKeepsConsistency(run, After(run, world, actions[..|actions| - 1]), actions[|actions| - 1], before);
      history := grown;
      if grown != before {
        PrefixGrows(run, before, carried, seen);
      }
    }
    forall w ensures LeavesWhole(run, At(After(run, world, actions), w), history) {
      LeaversAreDone(run, At(After(run, world, actions), w), history, After(run, world, actions).keys);
    }
  }

  lemma {:induction false} PrefixGrows(run: Run, history: seq<Episode>, carried: Cost, seen: set<string>)
    requires ValidSpace(run.goal.space) && CostsDecideNothing(run) && PrefixUpToCost(run, history)
    requires carried == ZERO_COST || (history != [] && carried == history[|history| - 1].cost)
    requires Next(run, history, carried, seen).Record?
    ensures PrefixUpToCost(run, history + [Next(run, history, carried, seen).episode])
  {
    var n, whole := |history|, Uninterrupted(run).0;
    AlongTheWhole(run, n, history, carried, seen);
    WholeCostsNoEuros(run);
    SameSnoc(history, whole[..n], Next(run, history, carried, seen).episode, whole[n]);
    assert whole[..n] + [whole[n]] == whole[..n + 1];
  }

  lemma {:induction false} LeaversAreDone(run: Run, worker: Worker, history: seq<Episode>, keys: set<string>)
    requires ValidSpace(run.goal.space) && CostsDecideNothing(run) && PrefixUpToCost(run, history)
    requires Sound(run, worker, history, keys)
    ensures LeavesWhole(run, worker, history)
  {
    if worker.Leaving? && worker.reason != Error {
      var own, whole := worker.state.history, Uninterrupted(run).0;
      var m := |own|;
      assert own == history[..m];
      WithoutCostsOfPrefix(history, m);
      WithoutCostsOfPrefix(whole[..|history|], m);
      assert whole[..|history|][..m] == whole[..m];
      TakenIsNext(run, worker.state, ZERO_COST, {});
      AlongTheWhole(run, m, own, ZERO_COST, {});
      assert m == |whole|;
      assert whole[..m] == whole;
    }
  }

  /** When no crash point shows in any cost, the table is exactly such a prefix, costs included. */
  lemma {:induction false} TableIsAlwaysPrefixOfWhole(run: Run, world: World, actions: seq<Action>) returns (n: nat)
    requires ValidSpace(run.goal.space) && Initial(run, world) && Traceless(run)
    ensures n <= |Uninterrupted(run).0|
    ensures Consistent(run, After(run, world, actions), Uninterrupted(run).0[..n])
  {
    var all := Uninterrupted(run).0;
    if actions == [] {
      n := 0;
      assert TableOf([]) == map[] && all[..0] == [];
    } else {
      n := TableIsAlwaysPrefixOfWhole(run, world, actions[..|actions| - 1]);
      var before := After(run, world, actions[..|actions| - 1]);
      var grown, carried, seen := StepKeepsConsistency(run, before, actions[|actions| - 1], all[..n]);
      if grown != all[..n] {
        if n < |all| {
          assert !LosesCarry(run, n) && !LosesCharge(run, n);
        }
        PrefixTurn(run, n, carried, seen);
        n := n + 1;
      }
      assert grown == all[..n];
    }
  }

  // ---------------------------------------------------------------- a worker left alone

  /** The worker is at a loop head, standing on the whole recorded history. */
  ghost predicate UpToDate(run: Run, world: World, w: nat, lastCost: Cost, history: seq<Episode>)
    requires ValidSpace(run.goal.space)
  {
    && Consistent(run, world, history)
    && At(world, w).Ready? && At(world, w).lastCost == lastCost && At(world, w).state.history == history
  }

  lemma {:induction false} AfterOne(run: Run, world: World, actions: seq<Action>, action: Action)
    requires ValidSpace(run.goal.space)
    ensures After(run, world, actions + [action]) == Apply(run, After(run, world, actions), action)
  {
    assert (actions + [action])[..|actions|] == actions;
  }

  lemma {:induction false} AfterBoth(run: Run, world: World, first: seq<Action>, second: seq<Action>)
    requires ValidSpace(run.goal.space)
    ensures After(run, world, first + second) == After(run, After(run, world, first), second)
  {
    if second == [] {
      assert first + second == first;
    } else {
      var init := second[..|second| - 1];
      AfterBoth(run, world, first, init);
      assert (first + second)[..|first + second| - 1] == first + init;
    }
  }

  lemma {:induction false} TurnIsHeld(run: Run, world: World, w: nat, lastCost: Cost, history: seq<Episode>)
    requires ValidSpace(run.goal.space) && UpToDate(run, world, w, lastCost, history)
    requires Next(run, history, lastCost, world.keys).Record?
    ensures var holding := Apply(run, Apply(run, world, Take(w)), Note(w));
            && Consistent(run, holding, history)
            && At(holding, w) == Holding(At(world, w).state, lastCost, world.keys, Next(run, history, lastCost, world.keys).episode)
            && holding.table == world.table && holding.keys == world.keys + AskedAfter(run, history)
  {
    TakenIsNext(run, At(world, w).state, lastCost, world.keys);
    AskedIsRecorded(run, At(world, w).state, lastCost, history);
    QuietStepKeepsConsistency(run, world, Take(w), history);
    QuietStepKeepsConsistency(run, Apply(run, world, Take(w)), Note(w), history);
  }

  lemma {:induction false} SavedIsUpToDate(run: Run, world: World, w: nat, history: seq<Episode>)
    requires ValidSpace(run.goal.space) && Consistent(run, world, history)
    requires At(world, w).Unsaved? && At(world, w).state.history == history
    ensures UpToDate(run, Apply(run, world, Save(w)), w, At(world, w).lastCost, history)
    ensures Apply(run, world, Save(w)).keys == world.keys
  {
    QuietStepKeepsConsistency(run, world, Save(w), history);
  }

  lemma {:induction false} HeldLands(run: Run, holding: World, w: nat, history: seq<Episode>)
    requires ValidSpace(run.goal.space) && Consistent(run, holding, history)
    requires At(holding, w).Holding? && At(holding, w).episode.idx !in holding.table
    ensures var episode := At(holding, w).episode;
            var landed := Apply(run, holding, Insert(w));
            && Consistent(run, landed, history + [episode]) && landed.keys == holding.keys
            && At(landed, w).Unsaved? && At(landed, w).lastCost == episode.cost && At(landed, w).state.history == history + [episode]
  {
    InsertExtends(run, holding, history, w);
  }

  /** Left alone for one turn it records the next episode and is at its next loop head. */
  lemma {:induction false} TurnLands(run: Run, world: World, w: nat, lastCost: Cost, history: seq<Episode>)
    requires ValidSpace(run.goal.space) && UpToDate(run, world, w, lastCost, history)
    requires Next(run, history, lastCost, world.keys).Record?
    ensures var episode := Next(run, history, lastCost, world.keys).episode;
            var holding := Apply(run, Apply(run, world, Take(w)), Note(w));
            var ready := Apply(run, Apply(run, holding, Insert(w)), Save(w));
            && UpToDate(run, ready, w, episode.cost, history + [episode])
            && ready.keys == world.keys + AskedAfter(run, history)
  {
    TurnIsHeld(run, world, w, lastCost, history);
    NextSpends(run, history, lastCost, world.keys);
    ContiguousNextIndex(history);
    var holding := Apply(run, Apply(run, world, Take(w)), Note(w));
    HeldLands(run, holding, w, history);
    SavedIsUpToDate(run, Apply(run, holding, Insert(w)), w, history + [At(holding, w).episode]);
  }

  /** Left alone where the run stops, it leaves, and the snapshot says that it is done. */
  lemma {:induction false} StopLeaves(run: Run, world: World, w: nat, lastCost: Cost, history: seq<Episode>)
    requires ValidSpace(run.goal.space) && UpToDate(run, world, w, lastCost, history)
    requires Next(run, history, lastCost, world.keys).Stop?
    ensures var left := Apply(run, Apply(run, Apply(run, world, Take(w)), Note(w)), Leave(w));
            && left.table == TableOf(history) && At(left, w).Idle?
            && left.row == Stamped(world.row, StateOf(run, history, Done))
  {
    TakenIsNext(run, At(world, w).state, lastCost, world.keys);
    StopForAnyCost(run, At(world, w).state, lastCost, world.keys);
  }

  /** Left alone, a worker records everything that is still to come, and marks the run done. */
  lemma {:induction false} WorkerFinishes(run: Run, world: World, w: nat, lastCost: Cost, history: seq<Episode>)
    returns (actions: seq<Action>)
    requires ValidSpace(run.goal.space) && UpToDate(run, world, w, lastCost, history)
    ensures var after := After(run, world, actions);
            var all := Complete(run, history, lastCost, world.keys).0;
            && after.table == TableOf(all)
            && after.row == Stamped(after.row, StateOf(run, all, Done))
    decreases Allowance(run, history)
  {
    if Next(run, history, lastCost, world.keys).Stop? {
      StopLeaves(run, world, w, lastCost, history);
      actions := Three(run, world, Take(w), Note(w), Leave(w));
    } else {
      var episode := Next(run, history, lastCost, world.keys).episode;
      NextSpends(run, history, lastCost, world.keys);
      TurnLands(run, world, w, lastCost, history);
      CompleteFromNext(run, history, lastCost, world.keys);
      var three := Three(run, world, Take(w), Note(w), Insert(w));
      AfterOne(run, world, three, Save(w));
      var turn := three + [Save(w)];
      var rest := WorkerFinishes(run, After(run, world, turn), w, episode.cost, history + [episode]);
      actions := turn + rest;
      AfterBoth(run, world, turn, rest);
    }
  }

  lemma {:induction false} Three(run: Run, world: World, one: Action, two: Action, three: Action) returns (actions: seq<Action>)
    requires ValidSpace(run.goal.space)
    ensures After(run, world, actions) == Apply(run, Apply(run, Apply(run, world, one), two), three)
  {
    AfterOne(run, world, [], one);
    AfterOne(run, world, [] + [one], two);
    AfterOne(run, world, [] + [one] + [two], three);
    actions := [] + [one] + [two] + [three];
  }

  /** A worker that dies and starts over is up to date, carrying nothing. */
  lemma {:induction false} RestartsUpToDate(run: Run, world: World, w: nat, history: seq<Episode>)
    requires ValidSpace(run.goal.space) && Consistent(run, world, history)
    ensures UpToDate(run, Apply(run, Apply(run, world, Crash(w)), Load(w)), w, ZERO_COST, history)
  {
    var idle := Apply(run, world, Crash(w));
    QuietStepKeepsConsistency(run, world, Crash(w), history);
    QuietStepKeepsConsistency(run, idle, Load(w), history);
    OrderedTable(history);
  }

  lemma {:induction false} RestartedFinishes(run: Run, world: World, w: nat, history: seq<Episode>) returns (actions: seq<Action>)
    requires ValidSpace(run.goal.space) && Consistent(run, world, history)
    ensures var after := After(run, world, actions);
            var all := Complete(run, history, ZERO_COST, world.keys).0;
            after.table == TableOf(all) && after.row == Stamped(after.row, StateOf(run, all, Done))
  {
    RestartsUpToDate(run, world, w, history);
    AfterOne(run, world, [], Crash(w));
    AfterOne(run, world, [] + [Crash(w)], Load(w));
    var restart := [] + [Crash(w)] + [Load(w)];
    var rest := WorkerFinishes(run, After(run, world, restart), w, ZERO_COST, history);
    actions := restart + rest;
    AfterBoth(run, world, restart, rest);
  }

  /** Whatever happened before, any one worker restarted and left alone finishes the run: every episode of the
      uninterrupted run, up to cost, under a snapshot that says done. */
  lemma {:induction false} AnyWorkerCanFinish(run: Run, world: World, before: seq<Action>, w: nat) returns (more: seq<Action>)
    requires ValidSpace(run.goal.space) && Initial(run, world) && CostsDecideNothing(run)
    ensures var after := After(run, world, before + more);
            && after.table == TableOf(Ordered(after.table))
            && SameUpToCost(Ordered(after.table), Uninterrupted(run).0)
            && after.row == Stamped(after.row, StateOf(run, Ordered(after.table), Done))
  {
    var history := TableIsAlwaysPrefixUpToCost(run, world, before);
    var reached := After(run, world, before);
    more := RestartedFinishes(run, reached, w, history);
    AfterBoth(run, world, before, more);
    AlongTheWhole(run, |history|, history, ZERO_COST, reached.keys);
    OrderedTable(Complete(run, history, ZERO_COST, reached.keys).0);
  }
}
